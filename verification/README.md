# ChromeMind in Dafny

ChromeMind is a Chrome extension. Its popup, its content script and its context menu send
text to a background service worker. The worker turns each request into a prompt and hands
it to a three-tier dispatcher. The tiers are tried in order:

1. a local GPT4All server;
2. the on-device Gemini Nano model, behind a flag and a capability check;
3. a cloud inference API, with up to `MAX_RETRIES` attempts and a 2000 ms wait between
   attempts.

This project models that core as pure Dafny functions over immutable data and proves what
each part promises.

| module | file | models |
|---|---|---|
| `Js` | `js.dfy` | the JavaScript string built-ins the code relies on: the `\s` class, `trim`, `slice(0, n)`, `substring(start)`, `includes`, `join` and its inverse `split` |
| `Escaping` | `escaping.dfy` | `escapeRegExp` and `escapeHTML`, each paired with a decoder and proved to round-trip in both directions |
| `Dispatcher` | `dispatcher.dfy` | `messagesToPrompt`, the tier chain of `callHuggingFace`, and the retry loop of `callCloudModel` |
| `Background` | `background.dfy` | `getLanguageName`, the four prompt builders, the action router, the translation notification, and the install defaults |
| `Content` | `content.dfy` | `extractPageContent` (selector priority, white-space collapse, trim, 5000-character cut, fallback text), the element `highlightText` modifies, and the content-script router |
| `Popup` | `popup.dfy` | key masking and the save rule, the AI status, `incrementStat`, the text-tool guards and requests, summarize, the chat history, chat rendering, and the popup's `getLanguageName` |

Backends are not called. Each backend is a scripted outcome:

- `LocalOutcome` for the local server;
- `NanoOutcome` for the on-device session;
- a sequence of `CloudOutcome` for the cloud attempts. An attempt beyond the end of that
  sequence counts as a thrown error.

A dispatch returns a `Run`: the string it resolves with, plus the observable events it
caused, in order. A dispatch that rejects returns `Rejected`: the error message, plus the
events before it. The events are local requests, on-device prompts, cloud requests and
2000 ms backoff waits. Counting the events states the request-count and backoff properties.

`callCloudModel` is modelled twice:

- `Dispatcher.CallCloudModel` is the `while` loop with its invariants;
- `Dispatcher.CloudExpected` is a closed form built on the first successful attempt.

The method is proved equal to the closed form. The rest of the model uses the closed form.

Four behaviours of the code that the model keeps:

- `messagesToPrompt` maps an entry without content to `''`, and `join('\n')` keeps it as an
  empty line (`Dispatcher.PromptLines`).
- The local tier checks that the first choice's text is truthy before trimming it. So a
  whitespace-only answer such as `"  "` wins and is returned as `''`
  (`Dispatcher.LocalWhitespaceAnswerWins`).
- The cloud credential is checked once, before the retry loop. With no key, the key error is
  returned and no request is made.
- The on-device guard reads `window.ai` outside its `try`. The service worker has no
  `window`, so with `USE_GEMINI_NANO` on and no local answer, the dispatch rejects with the
  `ReferenceError` "window is not defined". The worker then answers `success: false` with
  that message (`Background.WorkerWindowGuard`). As shipped the flag is off, so the guard
  never reads `window` and every dispatch resolves (`Dispatcher.FlagOffResolves`).

## Model

| member | source | states |
|---|---|---|
| Js.Trim | src/content/content.js:119 | `trim` removes exactly the white space at both ends: the result is a contiguous middle slice with white space on both sides of it and none at its own ends |
| Js.TrimEmptyIff | src/popup/popup.js:209-216 | trimming leaves nothing exactly when every character is white space |
| Js.SliceTo | src/content/content.js:120 | `slice(0, n)` keeps a prefix of at most `n` characters: all of a short string, exactly `n` of a long one |
| Js.SubstringFrom | src/popup/popup.js:320 | `substring(start)` is the suffix from the start clamped into the string, so a negative start gives the whole string |
| Js.JoinSplit | src/huggingface.js:94 | splitting at the separator and joining again gives back the string |
| Js.SplitJoin | src/huggingface.js:94 | joining separator-free pieces and splitting again gives back the pieces |
| Js.JoinSnoc | src/huggingface.js:94 | appending one piece to a non-empty list appends the separator and that piece to the joined string |
| Escaping.EscapeRegExp | src/content/content.js:160-162 | the escaped text is a literal pattern, with every syntax character behind a backslash and no backslash before anything else |
| Escaping.RegExpRoundTrip | src/content/content.js:160-162 | the pattern stands for exactly the original text |
| Escaping.LiteralPatternRoundTrip | src/content/content.js:160-162 | every literal pattern is the escape of the text it stands for |
| Escaping.EscapeRegExpPlain | src/content/content.js:160-162 | text without syntax characters is its own pattern |
| Escaping.EscapeHtmlText | src/content/content.js:170-172 | the replacement pass leaves no `< > " '` and leaves every `&` starting one of the five entities |
| Escaping.EscapeHtml | src/popup/popup.js:7-12 | falsy input gives `''`; a non-empty string gives non-empty safe HTML that displays as that string |
| Escaping.HtmlRoundTrip | src/content/content.js:168-173 | escaped text displays as the original text |
| Escaping.EscapedHtmlRoundTrip | src/content/content.js:168-173 | all safe HTML is the escape of what it displays |
| Escaping.EscapeHtmlPlain | src/content/content.js:168-173 | text without special characters passes through unchanged |
| Dispatcher.PromptLines | src/huggingface.js:88-95 | for newline-free entries, the prompt splits back into one line per entry, in order, with content-less entries as empty lines; `n` entries give `n - 1` newlines |
| Dispatcher.PromptEmptyIff | src/huggingface.js:88-95 | the prompt is empty exactly for a non-array, an empty array, or a single entry that contributes an empty line |
| Dispatcher.FirstSuccess | src/huggingface.js:60-82 | finds the first successful attempt in range: every earlier attempt fails; with no success, every attempt in range fails |
| Dispatcher.FirstSuccessIsLeast | src/huggingface.js:60-82 | if attempts before `k` fail and `k` succeeds, then `k` is the first success |
| Dispatcher.FirstSuccessNone | src/huggingface.js:60-82 | with every attempt failing there is no first success |
| Dispatcher.CloudTrace | src/huggingface.js:60-82 | `n` attempts produce requests at even positions and 2000 ms waits at odd ones: `2n - 1` events, with no wait before the first request or after the last |
| Dispatcher.CloudTraceCounts | src/huggingface.js:60-82 | `n` attempts make `n` cloud requests and `n - 1` waits, and nothing from another tier |
| Dispatcher.CallCloudModel | src/huggingface.js:53-85 | the retry loop returns exactly the closed form: with no key, the key sentinel and no request; otherwise the first success after `k + 1` requests, or the exhaustion sentinel after `maxRetries` requests |
| Dispatcher.CloudExpectedCounts | src/huggingface.js:53-85 | the cloud tier alone makes at most `maxRetries` requests, with one wait fewer than requests |
| Dispatcher.CallHuggingFace | src/huggingface.js:5-51 | a local answer wins with one local request and nothing else; a disabled tier leaves no event; events never return to an earlier tier; the dispatch rejects, with `window is not defined` after the local part, exactly when the local tier gives no answer and the on-device flag is on without a `window` |
| Dispatcher.DispatchCounts | src/huggingface.js:5-51 | the local server is asked once exactly when enabled; the on-device model once exactly when eligible and local gave no answer; the cloud at most `maxRetries` times, and never when an earlier tier answers or no key is set |
| Dispatcher.LocalFallsThrough | src/huggingface.js:9-33 | a local tier without an answer adds one request and is otherwise as if disabled |
| Dispatcher.NoKeyNoCloudRequest | src/huggingface.js:53-55 | reaching the cloud without a key gives the key sentinel with no cloud request and no wait |
| Dispatcher.CloudSucceedsAt | src/huggingface.js:58-82 | when attempts `0..k-1` fail and attempt `k` succeeds, the result is attempt `k`'s text after exactly `k + 1` requests and `k` waits |
| Dispatcher.CloudExhausted | src/huggingface.js:58-84 | when every attempt fails, the result is the exhaustion sentinel after exactly `maxRetries` requests and `maxRetries - 1` waits |
| Dispatcher.DispatchTailCounts | src/huggingface.js:50-84 | the result and the request and wait counts of a dispatch that reaches the cloud with a key |
| Dispatcher.DispatchResultSource | src/huggingface.js:5-85 | a dispatch that resolves gives a tier's answer or one of the two sentinels, both starting with `[ERROR]`; one that rejects carries the `window is not defined` message |
| Dispatcher.ParamsIgnored | src/huggingface.js:5-6 | the options argument never changes the dispatch |
| Dispatcher.LocalWhitespaceAnswerWins | src/huggingface.js:23-28 | with the local tier on, any non-empty whitespace-only local answer wins: the dispatch resolves with `''` after the one local request |
| Dispatcher.NanoAnswerVerbatim | src/huggingface.js:36-42 | when the on-device tier is eligible and the local tier gives no answer, whatever the on-device model answers, even `''`, is the result, after the local part and one on-device prompt |
| Dispatcher.FlagOffResolves | src/huggingface.js:36 | with the on-device flag off, the guard never reads `window` and every dispatch resolves |
| Dispatcher.FlagOnWithoutWindowRejects | src/huggingface.js:36 | with the flag on and no `window`, the dispatch rejects exactly when the local tier gives no answer, and neither the on-device model nor the cloud is ever asked |
| Dispatcher.HelloScenario | src/huggingface.js:53-85 | the scenario with key "abc" and replies 503 then "Hi there" returns "Hi there" after two requests with one 2000 ms wait |
| Background.LanguageNameDeterminesCode | src/background/background.js:142-155 | "English" is returned exactly for codes outside the table, and no two known codes share a name |
| Background.HandleMessage | src/background/background.js:54-94 | an unknown action answers `Unknown action` and dispatches nothing; a known action dispatches its handler's messages once and answers success with the resolved string, or `success: false` with the rejection's message; a notification is sent exactly for a successful translation from a truthy tab, and it carries the original and the translated text |
| Background.HandlerPrompt | src/background/background.js:97-135 | each single-message handler sends one message: its fixed instruction, then the caller's text, which can be read back unchanged |
| Background.ChatForwardsMessages | src/background/background.js:137-139 | a chat request hands the caller's message list to the dispatcher unchanged, with a 100-token option |
| Background.SenderDoesNotChangeResponse | src/background/background.js:97-114 | the sending tab affects only the notification, never the response or the dispatch |
| Background.WorkerWindowGuard | src/background/background.js:57-90 | in the worker, with the on-device flag on and the local tier silent, every known action answers `success: false` with `window is not defined`, notifies no tab and asks neither later tier; with the flag off, every known action answers success |
| Background.InitDefaults | src/background/background.js:20-28 | every stored setting is kept; each missing default key gets its default; no other key is added |
| Background.InitDefaultsIdempotent | src/background/background.js:20-28 | running the defaults rule again changes nothing |
| Content.FirstMatch | src/content/content.js:107-113 | the selector used is the first in priority order that matches; no earlier selector matches |
| Content.CollapseSpaces | src/content/content.js:117 | collapsing white space leaves single plain spaces only, keeps every other character in order, never lengthens the text, and starts with a space exactly when the text starts with white space |
| Content.CollapseSpacesRun | src/content/content.js:117 | each white-space run, between two other characters or at either end, becomes exactly one space, and the text on each side collapses on its own |
| Content.CollapseSpacesWord | src/content/content.js:117 | text without white space is left unchanged |
| Content.CollapseLineFeedsNoop | src/content/content.js:118 | with no line feed left, the second replacement is a no-op |
| Content.CollapsedHasNoLineFeed | src/content/content.js:117-118 | after the first replacement no line feed remains |
| Content.CollapseSpacesFixed | src/content/content.js:117 | already-collapsed text is left unchanged |
| Content.CleanTextShape | src/content/content.js:115-120 | the cleaned text is at most 5000 characters, collapsed, does not start with a space, and is empty exactly when the raw text is all white space |
| Content.SliceCanEndWithSpace | src/content/content.js:119-120 | because the cut follows the trim, the kept 5000 characters can end with a space |
| Content.ExtractPageContent | src/content/content.js:94-123 | the result is never empty and never longer than 5000 characters |
| Content.ExtractPageContentFallback | src/content/content.js:105-122 | the fallback text is used when no selector matches or the matched text is all white space |
| Content.ExtractPageContentCleaned | src/content/content.js:115-122 | otherwise the result is the cleaned text: collapsed, not starting with white space, and holding some other character |
| Content.FirstContaining | src/content/content.js:137-153 | the element modified is the first whose text includes the search text; no earlier element includes it |
| Content.HighlightTarget | src/content/content.js:129-154 | falsy text modifies nothing; otherwise at most the first containing element is modified |
| Content.HandleContentMessage | src/content/content.js:39-88 | an unknown action answers `Unknown action` with no effect; `getPageContent` answers the extracted page text (never empty, at most 5000 characters) with the title and URL, and modifies nothing; `highlightSelection` highlights the target for the request text and shows `Selection highlighted!`; `showTranslationResult` highlights the target for the original text and shows `Translation: ` followed by the translation; both answer success |
| Popup.MaskedKey | src/popup/popup.js:316-322 | a stored key is shown as eight dots plus its last four characters (the whole key when shorter); with no key the field is left alone |
| Popup.SaveKey | src/popup/popup.js:334-338 | saving writes the field exactly when it is non-empty and holds no mask dot; otherwise the stored key stays |
| Popup.SaveMaskedKeepsKey | src/popup/popup.js:334-338 | saving with the masked field untouched keeps the stored key |
| Popup.SaveNeverStoresMask | src/popup/popup.js:334-338 | an empty field does not delete the key, and the popup never newly stores a key holding a mask dot |
| Popup.SavedKeyIsShownMasked | src/popup/popup.js:319-320 | a newly saved key is what the field shows next, masked down to its last four characters |
| Popup.ModeOf | src/popup/popup.js:58-69 | the status is `api` exactly when a non-empty key is stored |
| Popup.LoadedConfig | src/config.js:21-26 | the stored key replaces the empty default exactly when it is a non-empty string, and nothing else differs from the defaults |
| Popup.ModeMatchesCloudTier | src/popup/popup.js:58-69 | the status is ready exactly when the dispatcher's key is set and exactly when the masked key is shown; with no key, the cloud tier answers the key sentinel without a request |
| Popup.LoadedConfigResolves | src/config.js:15 | with the shipped configuration, the on-device flag is off and every dispatch resolves, whatever the stored key |
| Popup.IncrementStat | src/popup/popup.js:365-371 | the counter goes up by one, a missing counter counts as 0, and every other counter is unchanged |
| Popup.IncrementStatCommutes | src/popup/popup.js:365-371 | two increments applied one after the other give the same counters in either order |
| Popup.Submit | src/popup/popup.js:208-266 | input that trims to nothing shows the tool's error and sends nothing; otherwise the trimmed input goes to the tool's own action, with the chosen language for a translation |
| Popup.FailureText | src/popup/popup.js:89-132 | a failed answer's error text is used when non-empty; in every other case the text is exactly the fallback message |
| Popup.Footer | src/popup/popup.js:224 | a translation shows `Target: ` and the popup's name for the language, inserted unescaped; the other tools show no such line |
| Popup.Finish | src/popup/popup.js:222-281 | success shows the escaped result, which displays as the result, with the tool's footer line, and bumps the tool's counter; anything else shows `Error: ` with the escaped message and leaves the counters alone; the inserted result or message never holds a raw `<` |
| Popup.ToolRoundTrip | src/popup/popup.js:89-132 | non-blank input reaches the dispatcher as the tool's instruction followed by the trimmed text; a dispatch that resolves is shown escaped and counted; one that rejects shows `Error: ` and its message and counts nothing |
| Popup.SubmitSummary | src/popup/popup.js:189-197 | a failed page read shows its error, or `Could not extract page content` when it has none, and sends nothing; any other reply is sent on for a summary, with its page text |
| Popup.Summarize | src/popup/popup.js:183-206 | a failed page read shows `Error: ` and the escaped message; otherwise success shows the escaped summary with the escaped page title under it and counts a summary, and anything else shows `Error: ` with the failure text or `Summarization failed`; no raw `<` is inserted |
| Popup.SummaryPrompt | src/popup/popup.js:74-87 | the page text is sent behind the summary instruction and can be read back unchanged |
| Popup.PageReadFeedsSummary | src/popup/popup.js:189-196 | the content script's page read is always sent on, and the summary is asked for the extracted page text, which is non-empty and at most 5000 characters |
| Popup.SummaryRoundTrip | src/popup/popup.js:183-206 | from a successful page read, the page text is sent behind the summary instruction; a dispatch that resolves is shown with the escaped title and counted as a summary; one that rejects shows its error and counts nothing |
| Popup.ToMessages | src/popup/popup.js:134-138 | the history is sent as one message entry per chat entry, in order, with role and content |
| Popup.HandleChat | src/popup/popup.js:284-303 | blank input changes nothing and sends nothing; otherwise the earlier history is kept as a prefix, the trimmed input is appended as a user message and sent with the history, and one assistant entry follows (the reply, or `Error: ` and the failure text); only a success counts as a chat |
| Popup.ChatKeepsPairs | src/popup/popup.js:134-150 | every chat turn keeps the history a sequence of user/assistant pairs |
| Popup.ChatPromptAppendsInput | src/popup/popup.js:134-138 | a chat turn's prompt is the previous conversation's prompt with the new message as one more line |
| Popup.ChatSucceeds | src/popup/popup.js:139-143 | a successful reply appends the question and then the answer to the history, and counts one chat |
| Popup.ChatFails | src/popup/popup.js:298-302 | a failed reply with a message appends the question and then `Error: ` and the message, and counts nothing |
| Popup.ChatRoundTrip | src/popup/popup.js:134-150 | end to end, the assistant's entry is the dispatched result for the history with the new message, and the chat is counted; when the dispatch rejects, the entry is `Error: ` and the rejection's message, and nothing is counted |
| Popup.ChatLabel | src/popup/popup.js:175-176 | a message is labelled "You" exactly when its role is `user`, otherwise "ChromeMind" |
| Popup.RenderEntry | src/popup/popup.js:171-180 | a rendered message has the class of its role and its label, escaped (the label needs no escaping); its text is the escaped content, which displays as written and never contains `<` or `>` |
| Popup.PopupLanguageName | src/popup/popup.js:385-388 | an unknown code is shown as itself |
| Popup.LanguageNamesCompared | src/popup/popup.js:385-388 | the popup and the worker name the popup's five languages alike; Portuguese is named only in the prompt; a code neither knows is shown as itself while the prompt asks for English |

## Left out

- Network and runtime calls are outcome values: `fetch`, `res.json()`, `window.ai.languageModel` sessions, and Chrome's storage, tabs, messaging and context-menu APIs. Request bodies (model id, `max_tokens: 300`, `temperature: 0.7`, endpoint URLs) are not modelled, because they never influence control flow.
- Waiting is recorded as a `Backoff(2000)` event rather than elapsed time. Per-request timeouts do not exist in the code, and the unused `TIMEOUT` constant is not modelled.
- `console` logging, the injected CSS, the tooltip bubble's DOM and positioning, and the popup's button labels and loading states are not modelled: they are display only.
- The context-menu handler at background.js:34-51 is not modelled. It is the same translation path as the router, with a fixed target `'es'`.
- `clearAllData`, `clearChatHistory`, `confirm` dialogs, tab switching, `loadStats` display and chat-history persistence are not modelled. They are storage and DOM glue with no rule of their own.
- Dispatcher.CallHuggingFace: message entries are strings, objects with or without content, or other values. `null` and `undefined` entries, on which the code throws, are not modelled, and content is treated as a string.
- Background.HandleMessage: a request field the sender omits is modelled as a string. The code would interpolate `undefined` into the prompt.
- Background.LanguageName and Popup.PopupLanguageName: codes naming inherited object properties, such as `constructor`, are not modelled. The code would read them from the object prototype.
- Popup.LoadedConfig: the key is read once, when the configuration module loads. A key saved later reaches the dispatcher only after the service worker restarts. The model has no restarts.
- Content.HighlightTarget: only the choice of element is modelled. The case-insensitive replacement on `innerHTML` is not modelled, and neither is the `catch` that moves on to the next element when the replacement throws. Matching is decided on `innerText`, so text holding `&`, `<` or `>` can choose an element whose HTML does not literally contain it.
- Popup.SubmitSummary: a content script that does not answer at all (a rejected `tabs.sendMessage`) is not modelled. Its error message comes from the browser.
- Popup.HandleChat: chat turns are modelled one at a time. The code has no guard against a second message sent before the first reply arrives (popup.js:284-303), and the interleaving of two such turns is not modelled.
- Popup.IncrementStat: the code reads the counters and writes them back later (popup.js:365-371). Two overlapping increments can lose one. The model applies increments one after the other.
- Strings are sequences of Unicode scalar values. JavaScript counts UTF-16 code units, so for text outside the Basic Multilingual Plane, `slice(0, 5000)` and `substring(length - 4)` cut at different places than the model does.
