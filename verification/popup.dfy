/** The popup's own rules, src/popup/popup.js: how the stored API key is shown and when the
    key field is saved, the AI status, the usage counters, the input guards and requests of
    the four text tools, and the multi-turn chat history with its rendering. Storage, the DOM
    and messaging are reduced to values: what was stored, what the user typed, and what the
    service worker answered. */
module Popup {
  import opened Js
  import opened Escaping
  import Dispatcher
  import Background
  import Content

  // ----- The API key field -----

  /** The character the masked key is drawn with, U+2022 BULLET. */
  const MaskDot: char := '\U{2022}'

  /** Eight mask dots. */
  const Mask: string := [MaskDot, MaskDot, MaskDot, MaskDot, MaskDot, MaskDot, MaskDot, MaskDot]

  /** What the key field shows once the settings load: for a stored key, eight dots followed
      by the key's last four characters (the whole key when it is shorter); otherwise the field
      is left as it is (`None`). */
  function MaskedKey(stored: Option<string>): (shown: Option<string>)
    ensures shown.Some? <==> Truthy(stored)
    ensures shown.Some? ==>
      var key := stored.value;
      var tail := if |key| < 4 then |key| else 4;
      && |shown.value| == |Mask| + tail
      && shown.value[..|Mask|] == Mask
      && shown.value[|Mask|..] == key[|key| - tail..]
  {
    if Truthy(stored) then Some(Mask + SubstringFrom(stored.value, |stored.value| - 4)) else None
  }

  /** Saving writes the key field only when it is non-empty and holds no mask dot, so an
      untouched masked field is never written back. */
  predicate WritesKey(input: string) {
    input != "" && MaskDot !in input
  }

  /** The stored key after the settings are saved with `input` in the key field. */
  function SaveKey(stored: Option<string>, input: string): (r: Option<string>)
    ensures r == stored || r == Some(input)
    ensures r == Some(input) && r != stored ==> input != "" && MaskDot !in input
    ensures input != "" && MaskDot !in input ==> r == Some(input)
  {
    if WritesKey(input) then Some(input) else stored
  }

  /** Saving the settings without touching the masked key field keeps the stored key. */
  lemma SaveMaskedKeepsKey(stored: Option<string>)
    requires Truthy(stored)
    ensures SaveKey(stored, MaskedKey(stored).value) == stored
  {
    assert MaskedKey(stored).value[0] == MaskDot;
  }

  /** Clearing the field does not delete the key, and no key the popup stores holds a mask dot
      unless it was already stored. */
  lemma SaveNeverStoresMask(stored: Option<string>, input: string)
    ensures SaveKey(stored, "") == stored
    ensures var r := SaveKey(stored, input); r.Some? && MaskDot in r.value ==> r == stored
  {
  }

  /** A key typed and saved is what the field shows next time, masked down to its last four
      characters. */
  lemma SavedKeyIsShownMasked(stored: Option<string>, input: string)
    requires WritesKey(input)
    ensures MaskedKey(SaveKey(stored, input)).Some?
    ensures MaskedKey(SaveKey(stored, input)).value[|Mask|..] == SubstringFrom(input, |input| - 4)
  {
  }

  // ----- The AI status -----

  datatype AiMode = Api | Unknown

  /** `updateAIStatus`: the popup reports the cloud as ready exactly when a key is stored. */
  function ModeOf(stored: Option<string>): (m: AiMode)
    ensures m == Api <==> Truthy(stored)
  {
    if stored.Some? && |stored.value| > 0 then Api else Unknown
  }

  function StatusText(m: AiMode): string
  {
    match m
    case Api => "AI Ready (Cloud)"
    case Unknown => "AI Unavailable (No API Key)"
  }

  /** The dispatcher's configuration once the stored key has been loaded: the key replaces the
      empty default only when it is a non-empty string. */
  function LoadedConfig(stored: Option<string>): (cfg: Dispatcher.Config)
    ensures cfg.hfApiKey != "" <==> Truthy(stored)
    ensures Truthy(stored) ==> cfg == Dispatcher.InitialConfig.(hfApiKey := stored.value)
    ensures !Truthy(stored) ==> cfg == Dispatcher.InitialConfig
    ensures cfg.useLocalFirst && !cfg.useGeminiNano && cfg.maxRetries == 2
  {
    if stored.Some? && |stored.value| > 0
    then Dispatcher.InitialConfig.(hfApiKey := stored.value)
    else Dispatcher.InitialConfig
  }

  /** The status the popup shows matches the dispatcher: with no key shown as ready, the cloud
      tier answers the no-key sentinel without sending a request, and the masked key is shown
      exactly when the status is ready. */
  lemma ModeMatchesCloudTier(stored: Option<string>, outs: seq<Dispatcher.CloudOutcome>, prompt: string)
    ensures ModeOf(stored) == Api <==> LoadedConfig(stored).hfApiKey != ""
    ensures ModeOf(stored) == Api <==> MaskedKey(stored).Some?
    ensures ModeOf(stored) == Unknown ==>
      Dispatcher.CloudExpected(LoadedConfig(stored).hfApiKey, 2, outs, prompt) == Dispatcher.Run(Dispatcher.NoKeyError, [])
  {
  }

  /** As configured, the on-device tier is off, so its guard never reads `window` and every
      dispatch the service worker makes resolves. */
  lemma LoadedConfigResolves(stored: Option<string>, env: Dispatcher.Backends,
                             messages: Dispatcher.Messages, params: Dispatcher.Params)
    ensures Dispatcher.CallHuggingFace(LoadedConfig(stored), env, messages, params).Run?
  {
    Dispatcher.FlagOffResolves(LoadedConfig(stored), env, messages, params);
  }

  // ----- Usage counters -----

  /** A counter's value; a missing counter reads as 0. */
  function StatCount(stats: map<string, nat>, key: string): nat
  {
    if key in stats then stats[key] else 0
  }

  /** `incrementStat`: one more for `key`, every other counter unchanged. */
  function IncrementStat(stats: map<string, nat>, key: string): (r: map<string, nat>)
    ensures StatCount(r, key) == StatCount(stats, key) + 1
    ensures forall k | k != key :: StatCount(r, k) == StatCount(stats, k)
    ensures r.Keys == stats.Keys + {key}
  {
    stats[key := StatCount(stats, key) + 1]
  }

  /** Two increments applied one after the other give the same counters in either order. */
  lemma IncrementStatCommutes(stats: map<string, nat>, a: string, b: string)
    ensures IncrementStat(IncrementStat(stats, a), b) == IncrementStat(IncrementStat(stats, b), a)
  {
    var x := IncrementStat(IncrementStat(stats, a), b);
    var y := IncrementStat(IncrementStat(stats, b), a);
    forall k | k in x.Keys
      ensures x[k] == y[k]
    {
      assert StatCount(x, k) == StatCount(y, k);
    }
  }

  // ----- The text tools -----

  datatype TextTool = Translate | Proofread | Rewrite

  /** What a click on a tool does first: show an error without sending, or send a request. */
  datatype Submission = ShowError(message: string) | Send(request: Background.Request)

  function EmptyInputMessage(tool: TextTool): string
  {
    match tool
    case Translate => "Please enter text to translate"
    case Proofread => "Please enter text to proofread"
    case Rewrite => "Please enter text to rewrite"
  }

  function ToolAction(tool: TextTool): string
  {
    match tool
    case Translate => "translateWithAI"
    case Proofread => "proofreadText"
    case Rewrite => "rewriteText"
  }

  /** `handleTranslate`, `handleProofread`, `handleRewrite` up to the request: input that trims
      to nothing shows the tool's error and sends nothing; otherwise the trimmed input is sent,
      with the chosen language for a translation. */
  function Submit(tool: TextTool, rawInput: string, lang: string): (s: Submission)
    ensures s.ShowError? <==> Trim(rawInput) == ""
    ensures s.ShowError? ==> s.message == EmptyInputMessage(tool)
    ensures s.Send? ==>
      && Background.IsKnownAction(s.request.action)
      && s.request.action == ToolAction(tool)
      && s.request.text == Trim(rawInput) && s.request.text != ""
      && (tool == Translate ==> s.request.targetLang == lang)
  {
    var input := Trim(rawInput);
    if input == "" then ShowError(EmptyInputMessage(tool))
    else Send(Background.Request(ToolAction(tool), input, if tool == Translate then lang else "",
                                 "", "", Dispatcher.NotAnArray))
  }

  /** The counter a tool's success increments. */
  function StatKey(tool: TextTool): string
  {
    match tool
    case Translate => "translations"
    case Proofread => "improvements"
    case Rewrite => "improvements"
  }

  /** The message used when the answer carries no error text. */
  function DefaultFailure(tool: TextTool): string
  {
    match tool
    case Translate => "Translation failed"
    case Proofread => "Proofreading failed"
    case Rewrite => "Rewriting failed"
  }

  /** `response?.error || fallback`: the error text of a failed answer, or the fallback when
      there is no answer or its error is empty. */
  function FailureText(reply: Option<Background.Response>, fallback: string): (m: string)
    ensures fallback != "" ==> m != ""
    ensures reply.Some? && reply.value.Failed? && reply.value.error != "" ==> m == reply.value.error
    ensures !(reply.Some? && reply.value.Failed? && reply.value.error != "") ==> m == fallback
  {
    if reply.Some? && reply.value.Failed? && reply.value.error != "" then reply.value.error else fallback
  }

  /** What the result box holds besides its fixed markup: the escaped answer and the text of
      the small line under it (empty when there is none), or `Error: ` and the escaped
      message. */
  datatype Shown = ResultShown(html: string, footer: string) | ErrorShown(html: string)

  /** The line under a tool's answer: the target language for a translation, named by the
      popup's table and inserted without escaping; nothing for the other tools. */
  function Footer(tool: TextTool, lang: string): (footer: string)
    ensures tool == Translate ==> footer == "Target: " + PopupLanguageName(lang)
    ensures tool != Translate ==> footer == ""
  {
    if tool == Translate then "Target: " + PopupLanguageName(lang) else ""
  }

  /** The rest of a tool's handler: a successful answer is shown escaped and counted, anything
      else is shown as an error and leaves the counters alone. Neither the answer nor the error
      can open a tag. */
  function Finish(tool: TextTool, lang: string, reply: Option<Background.Response>, stats: map<string, nat>): (out: (Shown, map<string, nat>))
    ensures out.0.ResultShown? <==> reply.Some? && reply.value.Succeeded?
    ensures out.0.ResultShown? ==>
      && out.0.html == EscapeHtml(Some(reply.value.result))
      && DecodeHtml(out.0.html) == reply.value.result
      && out.0.footer == Footer(tool, lang)
      && out.1 == IncrementStat(stats, StatKey(tool))
    ensures out.0.ErrorShown? ==>
      out.0.html == "Error: " + EscapeHtml(Some(FailureText(reply, DefaultFailure(tool)))) && out.1 == stats
    ensures '<' !in out.0.html
  {
    if reply.Some? && reply.value.Succeeded? then
      HtmlRoundTrip(reply.value.result);
      (ResultShown(EscapeHtml(Some(reply.value.result)), Footer(tool, lang)), IncrementStat(stats, StatKey(tool)))
    else
      (ErrorShown("Error: " + EscapeHtml(Some(FailureText(reply, DefaultFailure(tool))))), stats)
  }

  /** End to end: non-blank input reaches the service worker as the trimmed text behind the
      tool's instruction. A dispatch that resolves is shown and counted; one that rejects
      shows its error and counts nothing. */
  lemma ToolRoundTrip(tool: TextTool, rawInput: string, lang: string, tab: Option<int>,
                      cfg: Dispatcher.Config, env: Dispatcher.Backends, stats: map<string, nat>)
    requires Trim(rawInput) != ""
    ensures var req := Submit(tool, rawInput, lang).request;
      var reply := Background.HandleMessage(req, tab, cfg, env);
      var instruction := match tool
        case Translate => Background.TranslateInstruction(lang)
        case Proofread => Background.ProofreadInstruction
        case Rewrite => Background.RewriteInstruction;
      && Dispatcher.MessagesToPrompt(Background.HandlerInput(req).value.0) == instruction + Trim(rawInput)
      && reply.dispatched.Some?
      && Finish(tool, lang, Some(reply.response), stats) == Shows(reply.dispatched.value, Footer(tool, lang), stats, StatKey(tool))
  {
    var req := Submit(tool, rawInput, lang).request;
    Background.HandlerPrompt(req, cfg, env);
    var run := AnsweredRun(req, tab, cfg, env);
    FinishShows(tool, lang, run, stats);
  }

  /** A known action's dispatch, as the service worker answers it; a rejection always carries
      a message. */
  lemma AnsweredRun(req: Background.Request, tab: Option<int>, cfg: Dispatcher.Config, env: Dispatcher.Backends)
      returns (run: Dispatcher.Run)
    requires Background.IsKnownAction(req.action)
    ensures Background.HandleMessage(req, tab, cfg, env).dispatched == Some(run)
    ensures Background.HandleMessage(req, tab, cfg, env).response == Answer(run)
    ensures run.Rejected? ==> run.error != ""
  {
    var reply := Background.HandleMessage(req, tab, cfg, env);
    run := reply.dispatched.value;
  }

  lemma FinishShows(tool: TextTool, lang: string, run: Dispatcher.Run, stats: map<string, nat>)
    requires run.Rejected? ==> run.error != ""
    ensures Finish(tool, lang, Some(Answer(run)), stats) == Shows(run, Footer(tool, lang), stats, StatKey(tool))
  {
  }

  /** The service worker's answer to a dispatch: `success: true` with the result, or
      `success: false` with the rejection's message. */
  function Answer(run: Dispatcher.Run): Background.Response
  {
    match run
    case Run(result, _) => Background.Succeeded(result)
    case Rejected(error, _) => Background.Failed(error)
  }

  /** What a box shows for a dispatch as the service worker answered it: the escaped result
      with its footer line, counted; or `Error: ` and the escaped error message. */
  function Shows(run: Dispatcher.Run, footer: string, stats: map<string, nat>, key: string): (Shown, map<string, nat>)
  {
    match run
    case Run(result, _) => (ResultShown(EscapeHtml(Some(result)), footer), IncrementStat(stats, key))
    case Rejected(error, _) => (ErrorShown("Error: " + EscapeHtml(Some(error))), stats)
  }

  // ----- Summarize -----

  const NoPageContent := "Could not extract page content"
  const SummaryFailed := "Summarization failed"

  /** The page title a content-script reply carries; `''` when it has none, which is what
      escaping `undefined` gives. */
  function ReplyTitle(page: Content.ContentReply): Option<string>
  {
    if page.PageContent? then Some(page.title) else None
  }

  /** `handleSummarize` up to the request: a failed page read shows its error, or
      `'Could not extract page content'` when it has none. Any other reply is sent on to be
      summarized; a reply without content sends `undefined`, which the worker spells out in
      the prompt. The popup's own title travels along and is never read. */
  function SubmitSummary(page: Content.ContentReply, popupTitle: string): (s: Submission)
    ensures s.Send? <==> !page.ContentFailed?
    ensures s.ShowError? ==> s.message == (if page.error != "" then page.error else NoPageContent)
    ensures s.Send? ==>
      && s.request.action == "summarizeContent"
      && s.request.content == (if page.PageContent? then page.content else "undefined")
  {
    match page
    case PageContent(content, _, _) =>
      Send(Background.Request("summarizeContent", "", "", content, popupTitle, Dispatcher.NotAnArray))
    case Done =>
      Send(Background.Request("summarizeContent", "", "", "undefined", popupTitle, Dispatcher.NotAnArray))
    case ContentFailed(error) => ShowError(if error != "" then error else NoPageContent)
  }

  /** The rest of `handleSummarize`: a failed page read is shown as an error without asking
      the worker; otherwise a successful answer is shown escaped with the escaped page title
      under it and counted as a summary, and anything else is shown as `Error: ` and the
      escaped failure text. */
  function Summarize(page: Content.ContentReply, reply: Option<Background.Response>, stats: map<string, nat>): (out: (Shown, map<string, nat>))
    ensures page.ContentFailed? ==>
      out == (ErrorShown("Error: " + EscapeHtml(Some(SubmitSummary(page, "").message))), stats)
    ensures !page.ContentFailed? ==> (out.0.ResultShown? <==> reply.Some? && reply.value.Succeeded?)
    ensures !page.ContentFailed? && out.0.ResultShown? ==>
      && out.0.html == EscapeHtml(Some(reply.value.result))
      && DecodeHtml(out.0.html) == reply.value.result
      && out.0.footer == "Page: " + EscapeHtml(ReplyTitle(page))
      && out.1 == IncrementStat(stats, "summaries")
    ensures !page.ContentFailed? && out.0.ErrorShown? ==>
      out.0.html == "Error: " + EscapeHtml(Some(FailureText(reply, SummaryFailed))) && out.1 == stats
    ensures '<' !in out.0.html
  {
    match page
    case ContentFailed(error) =>
      (ErrorShown("Error: " + EscapeHtml(Some(if error != "" then error else NoPageContent))), stats)
    case _ =>
      if reply.Some? && reply.value.Succeeded? then
        HtmlRoundTrip(reply.value.result);
        (ResultShown(EscapeHtml(Some(reply.value.result)), "Page: " + EscapeHtml(ReplyTitle(page))),
         IncrementStat(stats, "summaries"))
      else
        (ErrorShown("Error: " + EscapeHtml(Some(FailureText(reply, SummaryFailed)))), stats)
  }

  /** The page text the content script returns is sent behind the summary instruction and can
      be read back from the prompt unchanged. */
  lemma SummaryPrompt(content: string, title: string, url: string, popupTitle: string)
    ensures var s := SubmitSummary(Content.PageContent(content, title, url), popupTitle);
      var prompt := Dispatcher.MessagesToPrompt(Background.HandlerInput(s.request).value.0);
      && s.Send?
      && prompt == Background.SummarizeInstruction + content
      && prompt[|Background.SummarizeInstruction|..] == content
  {
    var s := SubmitSummary(Content.PageContent(content, title, url), popupTitle);
    Background.HandlerPrompt(s.request, Dispatcher.InitialConfig,
      Dispatcher.Backends(Dispatcher.NoWindow, Dispatcher.LocalThrows, Dispatcher.NanoThrows, []));
  }

  /** The content script's answer to `getPageContent` is always sent on: the summary is asked
      for the extracted page text, which is never empty and at most 5000 characters. */
  lemma PageReadFeedsSummary(page: Content.Page, popupTitle: string)
    ensures var read := Content.HandleContentMessage(Content.ContentRequest("getPageContent", None, None, ""), page);
      var s := SubmitSummary(read.reply, popupTitle);
      && s.Send?
      && s.request.content == Content.ExtractPageContent(page)
      && s.request.content != "" && |s.request.content| <= Content.MaxContentLength
      && ReplyTitle(read.reply) == Some(page.title)
  {
  }

  /** End to end from a successful page read: its text is summarized behind the summary
      instruction. A dispatch that resolves is shown with the escaped page title under it and
      counted as a summary; one that rejects shows its error and counts nothing. */
  lemma SummaryRoundTrip(read: Content.ContentReply, popupTitle: string, tab: Option<int>,
                         cfg: Dispatcher.Config, env: Dispatcher.Backends, stats: map<string, nat>)
    requires read.PageContent?
    ensures var s := SubmitSummary(read, popupTitle);
      var reply := Background.HandleMessage(s.request, tab, cfg, env);
      && s.Send?
      && Dispatcher.MessagesToPrompt(Background.HandlerInput(s.request).value.0)
           == Background.SummarizeInstruction + read.content
      && reply.dispatched.Some?
      && Summarize(read, Some(reply.response), stats)
           == Shows(reply.dispatched.value, "Page: " + EscapeHtml(Some(read.title)), stats, "summaries")
  {
    var s := SubmitSummary(read, popupTitle);
    Background.HandlerPrompt(s.request, cfg, env);
    var run := AnsweredRun(s.request, tab, cfg, env);
    SummarizeShows(read, run, stats);
  }

  lemma SummarizeShows(read: Content.ContentReply, run: Dispatcher.Run, stats: map<string, nat>)
    requires read.PageContent? && (run.Rejected? ==> run.error != "")
    ensures Summarize(read, Some(Answer(run)), stats)
      == Shows(run, "Page: " + EscapeHtml(Some(read.title)), stats, "summaries")
  {
  }

  // ----- Chat -----

  /** One stored chat message. */
  datatype ChatEntry = ChatEntry(role: string, content: string)

  /** The history as the message list the service worker receives. */
  function ToMessages(history: seq<ChatEntry>): (m: Dispatcher.Messages)
    ensures m.Entries? && |m.items| == |history|
    ensures forall i | 0 <= i < |history| ::
      m.items[i] == Dispatcher.Message(history[i].role, Some(history[i].content))
  {
    Dispatcher.Entries(seq(|history|, i requires 0 <= i < |history| =>
      Dispatcher.Message(history[i].role, Some(history[i].content))))
  }

  /** The outcome of one chat turn: the new history, the message list sent (if any), and the
      counters. */
  datatype ChatTurn = ChatTurn(history: seq<ChatEntry>, sent: Option<Dispatcher.Messages>, stats: map<string, nat>)

  /** `handleChat` with `chatWithAI`: input that trims to nothing does nothing at all.
      Otherwise the trimmed input is appended as a user message, the whole history is sent,
      and one assistant message follows it: the reply, or `Error: ` and the failure text.
      Only a successful reply counts as a chat. */
  function HandleChat(history: seq<ChatEntry>, stats: map<string, nat>, rawInput: string,
                      reply: Option<Background.Response>): (t: ChatTurn)
    ensures Trim(rawInput) == "" ==> t == ChatTurn(history, None, stats)
    ensures Trim(rawInput) != "" ==>
      && |t.history| == |history| + 2
      && t.history[..|history|] == history
      && t.history[|history|] == ChatEntry("user", Trim(rawInput))
      && t.history[|history| + 1].role == "assistant"
      && t.history == history + [ChatEntry("user", Trim(rawInput)), t.history[|history| + 1]]
      && t.sent == Some(ToMessages(history + [ChatEntry("user", Trim(rawInput))]))
    ensures Trim(rawInput) != "" && reply.Some? && reply.value.Succeeded? ==>
      t.history[|history| + 1].content == reply.value.result && t.stats == IncrementStat(stats, "chats")
    ensures Trim(rawInput) != "" && !(reply.Some? && reply.value.Succeeded?) ==>
      t.history[|history| + 1].content == "Error: " + FailureText(reply, "Chat failed") && t.stats == stats
  {
    var msg := Trim(rawInput);
    if msg == "" then ChatTurn(history, None, stats)
    else
      var succeeded := reply.Some? && reply.value.Succeeded?;
      var answer := ChatEntry("assistant",
        if succeeded then reply.value.result else "Error: " + FailureText(reply, "Chat failed"));
      var h := history + [ChatEntry("user", msg), answer];
      assert h[..|history|] == history;
      ChatTurn(h, Some(ToMessages(history + [ChatEntry("user", msg)])),
               if succeeded then IncrementStat(stats, "chats") else stats)
  }

  /** A history of question-answer pairs: user messages at even positions, assistant messages
      at odd ones. */
  predicate Alternating(history: seq<ChatEntry>)
  {
    |history| % 2 == 0 && forall i | 0 <= i < |history| :: history[i].role == (if i % 2 == 0 then "user" else "assistant")
  }

  /** Every chat turn, answered or failed, keeps the history a sequence of pairs. */
  lemma ChatKeepsPairs(history: seq<ChatEntry>, stats: map<string, nat>, rawInput: string,
                       reply: Option<Background.Response>)
    requires Alternating(history)
    ensures Alternating(HandleChat(history, stats, rawInput, reply).history)
  {
    var h := HandleChat(history, stats, rawInput, reply).history;
    if Trim(rawInput) != "" {
      var n := |history|;
      assert |h| == n + 2 && h[..n] == history;
      assert h[n].role == "user" && h[n + 1].role == "assistant";
      PairsExtend(history, h[n], h[n + 1]);
      assert h == history + [h[n], h[n + 1]];
    }
  }

  lemma PairsExtend(history: seq<ChatEntry>, q: ChatEntry, a: ChatEntry)
    requires Alternating(history) && q.role == "user" && a.role == "assistant"
    ensures Alternating(history + [q, a])
  {
    var h := history + [q, a];
    forall i | 0 <= i < |h|
      ensures h[i].role == (if i % 2 == 0 then "user" else "assistant")
    {
      if i < |history| {
        assert h[i] == history[i];
      }
    }
  }

  /** The prompt a chat turn produces is the previous conversation's prompt with the new
      message as one more line. */
  lemma ChatPromptAppendsInput(history: seq<ChatEntry>, stats: map<string, nat>, rawInput: string,
                               reply: Option<Background.Response>)
    requires Trim(rawInput) != ""
    ensures var t := HandleChat(history, stats, rawInput, reply);
      var previous := Dispatcher.MessagesToPrompt(ToMessages(history));
      Dispatcher.MessagesToPrompt(t.sent.value)
        == if history == [] then Trim(rawInput) else previous + "\n" + Trim(rawInput)
  {
    var msg := Trim(rawInput);
    var asked := history + [ChatEntry("user", msg)];
    var before := Dispatcher.Lines(ToMessages(history).items);
    LinesSnoc(history, ChatEntry("user", msg));
    if history != [] {
      JoinSnoc(before, msg, '\n');
    }
  }

  /** One more chat entry adds one more line, its content. */
  lemma LinesSnoc(history: seq<ChatEntry>, e: ChatEntry)
    requires e.content != ""
    ensures Dispatcher.Lines(ToMessages(history + [e]).items) == Dispatcher.Lines(ToMessages(history).items) + [e.content]
  {
    var a := Dispatcher.Lines(ToMessages(history + [e]).items);
    var b := Dispatcher.Lines(ToMessages(history).items) + [e.content];
    assert |a| == |b|;
    forall i | 0 <= i < |a|
      ensures a[i] == b[i]
    {
      if i < |history| {
        assert (history + [e])[i] == history[i];
      } else {
        assert (history + [e])[i] == e;
      }
    }
  }

  /** End to end: the assistant's entry is the dispatched result for the history including
      the new message, counted as a chat; or, when the dispatch rejects, `Error: ` and the
      rejection's message, counting nothing. */
  lemma ChatRoundTrip(history: seq<ChatEntry>, stats: map<string, nat>, rawInput: string, tab: Option<int>,
                      cfg: Dispatcher.Config, env: Dispatcher.Backends)
    requires Trim(rawInput) != ""
    ensures var asked := history + [ChatEntry("user", Trim(rawInput))];
      var req := Background.Request("chatMessage", "", "", "", "", ToMessages(asked));
      var reply := Background.HandleMessage(req, tab, cfg, env);
      var t := HandleChat(history, stats, rawInput, Some(reply.response));
      var run := Dispatcher.CallHuggingFace(cfg, env, ToMessages(asked), Dispatcher.Params(Some(100)));
      && t.history == asked + [ChatEntry("assistant", if run.Run? then run.result else "Error: " + run.error)]
      && t.stats == (if run.Run? then IncrementStat(stats, "chats") else stats)
  {
    var msg := Trim(rawInput);
    var asked := history + [ChatEntry("user", msg)];
    var req := Background.Request("chatMessage", "", "", "", "", ToMessages(asked));
    var reply := Background.HandleMessage(req, tab, cfg, env);
    var answer := Dispatcher.CallHuggingFace(cfg, env, ToMessages(asked), Dispatcher.Params(Some(100)));
    ChatAnswered(req, tab, cfg, env);
    if answer.Run? {
      ChatSucceeds(history, stats, rawInput, answer.result);
    } else {
      ChatFails(history, stats, rawInput, answer.error);
    }
  }

  /** A successful reply appends the question and the answer and counts one chat. */
  lemma ChatSucceeds(history: seq<ChatEntry>, stats: map<string, nat>, rawInput: string, result: string)
    requires Trim(rawInput) != ""
    ensures var asked := history + [ChatEntry("user", Trim(rawInput))];
      var t := HandleChat(history, stats, rawInput, Some(Background.Succeeded(result)));
      && t.history == asked + [ChatEntry("assistant", result)]
      && t.stats == IncrementStat(stats, "chats")
  {
    var asked := history + [ChatEntry("user", Trim(rawInput))];
    var t := HandleChat(history, stats, rawInput, Some(Background.Succeeded(result)));
    assert t.history[|history| + 1] == ChatEntry("assistant", result);
    assert history + [ChatEntry("user", Trim(rawInput)), ChatEntry("assistant", result)]
        == asked + [ChatEntry("assistant", result)];
  }

  /** A failed reply with a message appends the question and `Error: ` with the message, and
      counts nothing. */
  lemma ChatFails(history: seq<ChatEntry>, stats: map<string, nat>, rawInput: string, error: string)
    requires Trim(rawInput) != "" && error != ""
    ensures var asked := history + [ChatEntry("user", Trim(rawInput))];
      var t := HandleChat(history, stats, rawInput, Some(Background.Failed(error)));
      && t.history == asked + [ChatEntry("assistant", "Error: " + error)]
      && t.stats == stats
  {
    var asked := history + [ChatEntry("user", Trim(rawInput))];
    var t := HandleChat(history, stats, rawInput, Some(Background.Failed(error)));
    assert t.history[|history| + 1] == ChatEntry("assistant", "Error: " + error);
    assert history + [ChatEntry("user", Trim(rawInput)), ChatEntry("assistant", "Error: " + error)]
        == asked + [ChatEntry("assistant", "Error: " + error)];
  }

  /** The service worker answers a chat request with the dispatch of its message list. */
  lemma ChatAnswered(req: Background.Request, tab: Option<int>, cfg: Dispatcher.Config, env: Dispatcher.Backends)
    requires req.action == "chatMessage"
    ensures Background.HandleMessage(req, tab, cfg, env).response
      == Answer(Dispatcher.CallHuggingFace(cfg, env, req.messages, Dispatcher.Params(Some(100))))
  {
    Background.ChatForwardsMessages(req, tab, cfg, env);
  }

  // ----- Chat rendering -----

  /** The speaker label of a chat message. */
  function ChatLabel(role: string): (speaker: string)
    ensures speaker == "You" <==> role == "user"
    ensures speaker == "ChromeMind" <==> role != "user"
  {
    if role == "user" then "You" else "ChromeMind"
  }

  /** One rendered chat message: its CSS class, its escaped label and its escaped text. */
  datatype Bubble = Bubble(cls: string, speaker: string, html: string)

  /** `updateChatUI` for one message: the text is escaped, so it displays as written and can
      never open a tag. */
  function RenderEntry(e: ChatEntry): (b: Bubble)
    ensures b.cls == (if e.role == "user" then "user" else "assistant")
    ensures b.speaker == EscapeHtml(Some(ChatLabel(e.role))) && b.speaker == ChatLabel(e.role)
    ensures b.html == EscapeHtml(Some(e.content)) && IsEscapedHtml(b.html)
    ensures '<' !in b.html && '>' !in b.html
    ensures DecodeHtml(b.html) == e.content
  {
    var speaker := ChatLabel(e.role);
    EscapeHtmlPlain(speaker);
    HtmlRoundTrip(e.content);
    Bubble(if e.role == "user" then "user" else "assistant", EscapeHtml(Some(speaker)), EscapeHtml(Some(e.content)))
  }

  // ----- The popup's language names -----

  /** The five languages the popup can name under a translation. */
  const PopupLanguageNames: map<string, string> :=
    map["es" := "Spanish", "fr" := "French", "de" := "German", "ja" := "Japanese", "zh" := "Chinese"]

  /** The popup's `getLanguageName`: a known code's name, otherwise the code itself. */
  function PopupLanguageName(code: string): (name: string)
    ensures code !in PopupLanguageNames ==> name == code
  {
    if code in PopupLanguageNames then PopupLanguageNames[code] else code
  }

  /** The popup and the service worker name the popup's five languages alike; beyond them they
      part: Portuguese is named only in the prompt, and a code neither knows is shown as itself
      while the prompt asks for English. */
  lemma LanguageNamesCompared(code: string)
    ensures code in PopupLanguageNames ==> PopupLanguageName(code) == Background.LanguageName(code)
    ensures PopupLanguageNames.Keys <= Background.LanguageNames.Keys
    ensures PopupLanguageName("pt") == "pt" && Background.LanguageName("pt") == "Portuguese"
    ensures code !in Background.LanguageNames ==>
      PopupLanguageName(code) == code && Background.LanguageName(code) == "English"
  {
  }
}
