/** The service worker of src/background/background.js: the rules that turn a request from the
    popup or a content script into a message list for the dispatcher, the action router, and
    the install-time defaults. Storage, messaging and menus are left to the browser. */
module Background {
  import opened Js
  import opened Dispatcher

  // ----- getLanguageName -----

  /** The target languages the service worker can name in a translation prompt. */
  const LanguageNames: map<string, string> := map[
    "es" := "Spanish", "fr" := "French", "de" := "German",
    "ja" := "Japanese", "zh" := "Chinese", "pt" := "Portuguese",
    "it" := "Italian", "ru" := "Russian", "ko" := "Korean"]

  /** `getLanguageName`: a known code's name, `'English'` for every other code. */
  function LanguageName(code: string): string
  {
    if code in LanguageNames then LanguageNames[code] else "English"
  }

  /** The prompt says "English" exactly for the codes the table does not know, and two known
      codes never share a name, so the prompt names the target language unambiguously. */
  lemma LanguageNameDeterminesCode(code: string, other: string)
    ensures LanguageName(code) == "English" <==> code !in LanguageNames
    ensures code in LanguageNames && other in LanguageNames && LanguageName(code) == LanguageName(other)
      ==> code == other
  {
  }

  // ----- Prompt builders -----

  function TranslateInstruction(targetLang: string): string
  {
    "Translate the following text to " + LanguageName(targetLang) + ":\n\n"
  }

  const SummarizeInstruction := "Summarize this content in 2-3 sentences:\n\n"
  const ProofreadInstruction := "Proofread and correct grammar in the following text. Only return the corrected text:\n\n"
  const RewriteInstruction := "Rewrite the following text for improved clarity, style, and conciseness:\n\n"

  /** A message list holding one user message. */
  function UserMessage(content: string): Messages
  {
    Entries([Message("user", Some(content))])
  }

  // ----- The action router -----

  /** A message sent to the service worker; each action reads only its own fields. A field the
      sender left out would be interpolated as "undefined"; the model keeps every field a string. */
  datatype Request = Request(action: string, text: string, targetLang: string, content: string,
                             title: string, messages: Messages)

  /** The `{success, result}` / `{success, error}` object sent back to the caller. */
  datatype Response = Succeeded(result: string) | Failed(error: string)

  /** The best-effort message sent to the content script of the tab a translation came from. */
  datatype Notification = ShowTranslationResult(tabId: int, originalText: string, translatedText: string)

  /** What handling one request produced: the response, the dispatch it caused (if any) and
      the notification it sent (if any). */
  datatype Reply = Reply(response: Response, dispatched: Option<Run>, notification: Option<Notification>)

  /** The five actions the router knows. */
  predicate IsKnownAction(action: string)
  {
    action in {"translateWithAI", "summarizeContent", "proofreadText", "rewriteText", "chatMessage"}
  }

  /** The message list each handler hands to the dispatcher, and the options it passes along. */
  function HandlerInput(req: Request): Option<(Messages, Params)>
  {
    if req.action == "translateWithAI" then
      Some((UserMessage(TranslateInstruction(req.targetLang) + req.text), Params(Some(150))))
    else if req.action == "summarizeContent" then
      Some((UserMessage(SummarizeInstruction + req.content), Params(Some(100))))
    else if req.action == "proofreadText" then
      Some((UserMessage(ProofreadInstruction + req.text), Params(Some(150))))
    else if req.action == "rewriteText" then
      Some((UserMessage(RewriteInstruction + req.text), Params(Some(200))))
    else if req.action == "chatMessage" then
      Some((req.messages, Params(Some(100))))
    else None
  }

  /** A tab id is truthy when present and not 0. */
  predicate TabTruthy(tabId: Option<int>)
  {
    tabId.Some? && tabId.value != 0
  }

  /** The `onMessage` listener. A known action dispatches once and answers
      `{success: true, result}` when the dispatch resolves, `{success: false, error}` with the
      error's message when it rejects; any other action answers
      `{success: false, error: 'Unknown action'}` and dispatches nothing. Only a translation
      that resolved, from a truthy tab, notifies that tab, and the notification's fate never
      reaches the response. */
  function HandleMessage(req: Request, senderTab: Option<int>, cfg: Config, env: Backends): (reply: Reply)
    ensures !IsKnownAction(req.action) ==> reply == Reply(Failed("Unknown action"), None, None)
    ensures IsKnownAction(req.action) ==>
      && HandlerInput(req).Some?
      && reply.dispatched == Some(CallHuggingFace(cfg, env, HandlerInput(req).value.0, HandlerInput(req).value.1))
      && reply.response == (match reply.dispatched.value
           case Run(result, _) => Succeeded(result)
           case Rejected(error, _) => Failed(error))
    ensures reply.notification.Some? <==>
      req.action == "translateWithAI" && TabTruthy(senderTab) && reply.response.Succeeded?
    ensures reply.notification.Some? ==>
      reply.notification.value == ShowTranslationResult(senderTab.value, req.text, reply.response.result)
  {
    match HandlerInput(req)
    case None => Reply(Failed("Unknown action"), None, None)
    case Some((messages, params)) =>
      match CallHuggingFace(cfg, env, messages, params)
      case Rejected(error, trace) => Reply(Failed(error), Some(Rejected(error, trace)), None)
      case Run(result, trace) =>
        var notice := if req.action == "translateWithAI" && TabTruthy(senderTab)
          then Some(ShowTranslationResult(senderTab.value, req.text, result)) else None;
        Reply(Succeeded(result), Some(Run(result, trace)), notice)
  }

  /** The prompt a single-message handler sends is its fixed instruction followed by the
      caller's text, which can be read back from the prompt unchanged. */
  lemma HandlerPrompt(req: Request, cfg: Config, env: Backends)
    requires req.action in {"translateWithAI", "summarizeContent", "proofreadText", "rewriteText"}
    ensures var instruction :=
        if req.action == "translateWithAI" then TranslateInstruction(req.targetLang)
        else if req.action == "summarizeContent" then SummarizeInstruction
        else if req.action == "proofreadText" then ProofreadInstruction
        else RewriteInstruction;
      var field := if req.action == "summarizeContent" then req.content else req.text;
      var prompt := MessagesToPrompt(HandlerInput(req).value.0);
      && |HandlerInput(req).value.0.items| == 1
      && prompt == instruction + field
      && prompt[|instruction|..] == field
  {
  }

  /** A chat request hands the caller's message list to the dispatcher unchanged. */
  lemma ChatForwardsMessages(req: Request, senderTab: Option<int>, cfg: Config, env: Backends)
    requires req.action == "chatMessage"
    ensures HandleMessage(req, senderTab, cfg, env).dispatched ==
      Some(CallHuggingFace(cfg, env, req.messages, Params(Some(100))))
  {
  }

  /** The worker has no `window`. With the on-device flag on, every known action the local tier
      does not answer comes back as the `ReferenceError` of the tier-2 guard, notifies no tab,
      and reaches neither the on-device model nor the cloud. With the flag off, as shipped,
      every known action succeeds. */
  lemma WorkerWindowGuard(req: Request, senderTab: Option<int>, cfg: Config, env: Backends)
    requires IsKnownAction(req.action) && env.window == NoWindow
    ensures var reply := HandleMessage(req, senderTab, cfg, env);
      cfg.useGeminiNano && LocalResult(cfg, env).None? ==>
        && reply.response == Failed(WindowUndefinedError)
        && reply.notification.None?
        && CountNano(reply.dispatched.value.trace) == 0
        && CountCloud(reply.dispatched.value.trace) == 0
    ensures !cfg.useGeminiNano ==> HandleMessage(req, senderTab, cfg, env).response.Succeeded?
  {
    var input := HandlerInput(req).value;
    if cfg.useGeminiNano {
      FlagOnWithoutWindowRejects(cfg, env, input.0, input.1);
    } else {
      FlagOffResolves(cfg, env, input.0, input.1);
    }
  }

  /** Where the request came from changes only whether a notification is sent, never the
      response or the dispatch. */
  lemma SenderDoesNotChangeResponse(req: Request, t1: Option<int>, t2: Option<int>, cfg: Config, env: Backends)
    ensures HandleMessage(req, t1, cfg, env).response == HandleMessage(req, t2, cfg, env).response
    ensures HandleMessage(req, t1, cfg, env).dispatched == HandleMessage(req, t2, cfg, env).dispatched
  {
  }

  // ----- Install-time defaults -----

  /** A stored setting value. */
  datatype Setting = Flag(on: bool) | Word(text: string)

  /** The install-time defaults. */
  const Defaults: map<string, Setting> :=
    map["aiEnabled" := Flag(true), "theme" := Word("default"), "autoSummarize" := Flag(false)]

  function SetIfUndefined(stored: map<string, Setting>, key: string, value: Setting): map<string, Setting>
  {
    if key in stored then stored else stored[key := value]
  }

  /** The `onInstalled` defaults rule: each of the three keys is written only when it is
      undefined; every stored value is kept, and nothing else is added. */
  function InitDefaults(stored: map<string, Setting>): (r: map<string, Setting>)
    ensures r.Keys == stored.Keys + Defaults.Keys
    ensures forall k | k in stored :: r[k] == stored[k]
    ensures forall k | k in Defaults && k !in stored :: r[k] == Defaults[k]
  {
    var s := SetIfUndefined(stored, "aiEnabled", Flag(true));
    var s := SetIfUndefined(s, "theme", Word("default"));
    SetIfUndefined(s, "autoSummarize", Flag(false))
  }

  /** Running the defaults rule again (on every install or upgrade) changes nothing more. */
  lemma InitDefaultsIdempotent(stored: map<string, Setting>)
    ensures InitDefaults(InitDefaults(stored)) == InitDefaults(stored)
  {
  }
}
