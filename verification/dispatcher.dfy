/** The text-generation dispatcher of src/huggingface.js.

    `callHuggingFace` flattens a message list into one prompt and asks up to three backends in
    a fixed order: the local GPT4All server, the on-device Gemini Nano model, then the cloud
    inference API, which is the only tier that is retried. Every backend call is an opaque
    outcome taken from a script (`Backends`); what the dispatcher does with those outcomes is
    recorded as a trace of `Event`s, so the model can say which tiers were consulted, how many
    cloud requests were made, how many backoff waits happened, and which string came back. */
module Dispatcher {
  import opened Js

  // ----- messagesToPrompt -----

  /** One element of the message list: a bare string, a message record (its `role` is carried
      but never read; its `content` may be missing), or any other non-null object or primitive,
      which has no `content`. `null` and `undefined` elements are not modelled: reading
      `content` of either throws. */
  datatype Entry = Plain(text: string) | Message(role: string, content: Option<string>) | Other

  /** The `messages` argument: an array of entries, or a value that is not an array. */
  datatype Messages = NotAnArray | Entries(items: seq<Entry>)

  /** The line an entry contributes: a string is itself, a record with truthy content is that
      content, anything else is the empty line. */
  function EntryText(e: Entry): string
  {
    match e
    case Plain(t) => t
    case Message(_, content) => if Truthy(content) then content.value else ""
    case Other => ""
  }

  function Lines(items: seq<Entry>): seq<string>
  {
    seq(|items|, i requires 0 <= i < |items| => EntryText(items[i]))
  }

  /** `messagesToPrompt`: the entries' lines joined with `'\n'`; `''` for a non-array. */
  function MessagesToPrompt(messages: Messages): string
  {
    match messages
    case NotAnArray => ""
    case Entries(items) => Join(Lines(items), '\n')
  }

  /** When no line holds a newline, the prompt has exactly one line per entry, in order,
      content-less entries included as empty lines, and so `n - 1` newlines for `n` entries. */
  lemma PromptLines(items: seq<Entry>)
    requires |items| >= 1
    requires forall i | 0 <= i < |items| :: '\n' !in EntryText(items[i])
    ensures Split(MessagesToPrompt(Entries(items)), '\n') == Lines(items)
    ensures Occurrences(MessagesToPrompt(Entries(items)), '\n') == |items| - 1
  {
    SplitJoin(Lines(items), '\n');
    JoinSeparatorCount(Lines(items), '\n');
  }

  /** The prompt is empty exactly for a non-array, an empty array, or a single entry that
      contributes an empty line. Two entries always leave at least a newline. */
  lemma PromptEmptyIff(messages: Messages)
    ensures MessagesToPrompt(messages) == "" <==>
      || messages.NotAnArray?
      || |messages.items| == 0
      || (|messages.items| == 1 && EntryText(messages.items[0]) == "")
  {
    if messages.Entries? && |messages.items| >= 2 {
      JoinHasSeparator(Lines(messages.items), '\n');
    }
  }

  // ----- Backends, configuration and the trace -----

  /** The local server's answer: a thrown error (network failure, unreadable body), or a
      response with its `ok` flag and the `choices[0].text` field, if present. */
  datatype LocalOutcome = LocalThrows | LocalReply(ok: bool, choiceText: Option<string>)

  /** The on-device session's answer: a thrown error or the text it produced. */
  datatype NanoOutcome = NanoThrows | NanoReply(answer: string)

  /** One cloud attempt: a thrown error, or a response with its `ok` flag and the
      `[0].generated_text` field, if present. */
  datatype CloudOutcome = CloudThrows | CloudReply(ok: bool, generatedText: Option<string>)

  /** The configuration the dispatcher reads: the two tier flags, the cloud key and the
      attempt cap. */
  datatype Config = Config(useLocalFirst: bool, useGeminiNano: bool, hfApiKey: string, maxRetries: int)

  /** The values the configuration starts with before a key is loaded from storage. */
  const InitialConfig := Config(true, false, "", 2)

  /** The global `window` as the dispatcher's code finds it. A service worker has none, and
      reading the name throws a `ReferenceError`; a page has one, with or without the
      experimental `ai` property. */
  datatype Window = NoWindow | HasWindow(ai: bool)

  /** What the outside world answers: the global `window`, and the scripted outcome of each
      backend call. Cloud attempt `k` gets `cloud[k]`; an attempt past the end of the script
      finds the network down and throws. */
  datatype Backends = Backends(window: Window, local: LocalOutcome, nano: NanoOutcome, cloud: seq<CloudOutcome>)

  /** The options object a caller passes; the dispatcher never reads it. */
  datatype Params = Params(maxNewTokens: Option<int>)

  /** What the dispatcher does that the outside world can observe. */
  datatype Event =
    | LocalRequest(prompt: string)
    | NanoPrompt(prompt: string)
    | CloudRequest(token: string, inputs: string)
    | Backoff(ms: nat)

  /** How a dispatch settles, with the events it caused, in order: resolved with a string, or
      rejected with an error's message. */
  datatype Run = Run(result: string, trace: seq<Event>) | Rejected(error: string, trace: seq<Event>)

  const BackoffMs: nat := 2000
  /** Both sentinels start with this marker, so callers can display them like any answer. */
  const ErrorMarker := "[ERROR]"
  const NoKeyError := ErrorMarker + " No Cloud API key. Set it in Settings."
  const AllFailedError := ErrorMarker + " All AI backends failed. Try enabling local GPT4All or add cloud API key."
  /** The message of the `ReferenceError` thrown by reading `window` where it is not defined. */
  const WindowUndefinedError := "window is not defined"

  datatype Tier = LocalTier | NanoTier | CloudTier

  /** The tier an event belongs to; backoff waits belong to the cloud tier. */
  function TierOf(e: Event): Tier
  {
    match e
    case LocalRequest(_) => LocalTier
    case NanoPrompt(_) => NanoTier
    case _ => CloudTier
  }

  function Rank(t: Tier): nat
  {
    match t
    case LocalTier => 0
    case NanoTier => 1
    case CloudTier => 2
  }

  /** Events appear tier by tier, never returning to an earlier tier. */
  predicate TierOrdered(trace: seq<Event>)
  {
    forall i, j | 0 <= i < j < |trace| :: Rank(TierOf(trace[i])) <= Rank(TierOf(trace[j]))
  }

  function Max0(x: int): nat
  {
    if x < 0 then 0 else x
  }

  function CountLocal(trace: seq<Event>): nat
  {
    if |trace| == 0 then 0 else (if trace[0].LocalRequest? then 1 else 0) + CountLocal(trace[1..])
  }

  function CountNano(trace: seq<Event>): nat
  {
    if |trace| == 0 then 0 else (if trace[0].NanoPrompt? then 1 else 0) + CountNano(trace[1..])
  }

  function CountCloud(trace: seq<Event>): nat
  {
    if |trace| == 0 then 0 else (if trace[0].CloudRequest? then 1 else 0) + CountCloud(trace[1..])
  }

  function CountWaits(trace: seq<Event>): nat
  {
    if |trace| == 0 then 0 else (if trace[0].Backoff? then 1 else 0) + CountWaits(trace[1..])
  }

  lemma {:induction false} CountsAppend(a: seq<Event>, b: seq<Event>)
    ensures CountLocal(a + b) == CountLocal(a) + CountLocal(b)
    ensures CountNano(a + b) == CountNano(a) + CountNano(b)
    ensures CountCloud(a + b) == CountCloud(a) + CountCloud(b)
    ensures CountWaits(a + b) == CountWaits(a) + CountWaits(b)
    decreases |a|
  {
    if |a| == 0 {
      assert a + b == b;
    } else {
      assert (a + b)[1..] == a[1..] + b;
      CountsAppend(a[1..], b);
    }
  }

  // ----- Tiers 1 and 2 -----

  /** The local tier answers when the response is ok and its first choice text is truthy; the
      answer is that text trimmed. Anything else falls through. */
  function LocalAnswer(o: LocalOutcome): Option<string>
  {
    match o
    case LocalReply(true, text) => if Truthy(text) then Some(Trim(text.value)) else None
    case _ => None
  }

  /** The on-device tier answers with whatever the session returned, even `''`. */
  function NanoAnswer(o: NanoOutcome): Option<string>
  {
    match o
    case NanoReply(a) => Some(a)
    case NanoThrows => None
  }

  /** Tier 2 is consulted only when its flag is set and `window.ai` exists. */
  predicate NanoEligible(cfg: Config, env: Backends)
  {
    cfg.useGeminiNano && env.window == HasWindow(true)
  }

  /** The tier-2 guard reads `window` only when the flag is set, and that read throws where
      there is no `window`; the guard sits outside the `try`, so the dispatch rejects. */
  predicate NanoGuardThrows(cfg: Config, env: Backends)
  {
    cfg.useGeminiNano && env.window.NoWindow?
  }

  function LocalResult(cfg: Config, env: Backends): Option<string>
  {
    if cfg.useLocalFirst then LocalAnswer(env.local) else None
  }

  function NanoResult(cfg: Config, env: Backends): Option<string>
  {
    if NanoEligible(cfg, env) then NanoAnswer(env.nano) else None
  }

  function LocalTrace(cfg: Config, prompt: string): seq<Event>
  {
    if cfg.useLocalFirst then [LocalRequest(prompt)] else []
  }

  function NanoTrace(cfg: Config, env: Backends, prompt: string): seq<Event>
  {
    if NanoEligible(cfg, env) then [NanoPrompt(prompt)] else []
  }

  /** Neither earlier tier produced an answer and the tier-2 guard did not throw, so control
      reaches the cloud tier. */
  predicate ReachesCloud(cfg: Config, env: Backends)
  {
    LocalResult(cfg, env).None? && !NanoGuardThrows(cfg, env) && NanoResult(cfg, env).None?
  }

  // ----- Tier 3: the cloud retry loop -----

  function CloudAttempt(outs: seq<CloudOutcome>, k: nat): CloudOutcome
  {
    if k < |outs| then outs[k] else CloudThrows
  }

  /** A cloud attempt succeeds when the response is ok and `generated_text` is truthy. */
  function CloudAnswer(o: CloudOutcome): Option<string>
  {
    match o
    case CloudReply(true, text) => if Truthy(text) then Some(text.value) else None
    case _ => None
  }

  /** The first attempt in `[from, limit)` that succeeds, if any. */
  function FirstSuccess(outs: seq<CloudOutcome>, from: nat, limit: int): (k: Option<nat>)
    ensures k.Some? ==>
      && from <= k.value < limit
      && CloudAnswer(CloudAttempt(outs, k.value)).Some?
      && forall j | from <= j < k.value :: CloudAnswer(CloudAttempt(outs, j)).None?
    ensures k.None? ==> forall j | from <= j < limit :: CloudAnswer(CloudAttempt(outs, j)).None?
    decreases limit - from
  {
    if from >= limit then None
    else if CloudAnswer(CloudAttempt(outs, from)).Some? then Some(from)
    else FirstSuccess(outs, from + 1, limit)
  }

  /** The events of `n` cloud attempts: requests with one backoff between each two of them,
      none before the first and none after the last. */
  function CloudTrace(token: string, prompt: string, n: nat): (t: seq<Event>)
    ensures |t| == if n == 0 then 0 else 2 * n - 1
    ensures forall i | 0 <= i < |t| ::
      t[i] == if i % 2 == 0 then CloudRequest(token, prompt) else Backoff(BackoffMs)
  {
    if n <= 1 then (if n == 0 then [] else [CloudRequest(token, prompt)])
    else CloudTrace(token, prompt, n - 1) + [Backoff(BackoffMs), CloudRequest(token, prompt)]
  }

  /** `n` attempts make `n` requests and `n - 1` waits, and belong to the cloud tier only. */
  lemma {:induction false} CloudTraceCounts(token: string, prompt: string, n: nat)
    ensures CountCloud(CloudTrace(token, prompt, n)) == n
    ensures CountWaits(CloudTrace(token, prompt, n)) == Max0(n - 1)
    ensures CountLocal(CloudTrace(token, prompt, n)) == 0
    ensures CountNano(CloudTrace(token, prompt, n)) == 0
  {
    var request := CloudRequest(token, prompt);
    assert [request][1..] == [];
    assert CountCloud([request]) == 1 && CountWaits([request]) == 0;
    assert CountLocal([request]) == 0 && CountNano([request]) == 0;
    if n >= 2 {
      CloudTraceCounts(token, prompt, n - 1);
      var tail := [Backoff(BackoffMs), request];
      assert tail[1..] == [request];
      assert CountCloud(tail) == 1 && CountWaits(tail) == 1;
      assert CountLocal(tail) == 0 && CountNano(tail) == 0;
      CountsAppend(CloudTrace(token, prompt, n - 1), [Backoff(BackoffMs), request]);
    }
  }

  /** The closed form of `callCloudModel`: no key means the key error and no request; else
      the first successful attempt `k` ends the loop after `k + 1` requests and `k` waits, and
      with no success all `maxRetries` attempts are spent and the exhaustion sentinel returned. */
  function CloudExpected(token: string, maxRetries: int, outs: seq<CloudOutcome>, prompt: string): Run
  {
    if token == "" then Run(NoKeyError, [])
    else match FirstSuccess(outs, 0, maxRetries)
      case Some(k) => Run(CloudAnswer(CloudAttempt(outs, k)).value, CloudTrace(token, prompt, k + 1))
      case None => Run(AllFailedError, CloudTrace(token, prompt, Max0(maxRetries)))
  }

  /** `callCloudModel` as the loop it is: one request per attempt, a 2000 ms wait after each
      failed attempt that is not the last. */
  method CallCloudModel(token: string, maxRetries: int, outs: seq<CloudOutcome>, prompt: string) returns (run: Run)
    ensures run == CloudExpected(token, maxRetries, outs, prompt)
    ensures token == "" ==> run == Run(NoKeyError, [])
  {
    if token == "" {
      return Run(NoKeyError, []);
    }
    var attempt := 0;
    var trace: seq<Event> := [];
    while attempt < maxRetries
      invariant 0 <= attempt && (attempt == 0 || attempt <= maxRetries)
      invariant FirstSuccess(outs, 0, maxRetries) == FirstSuccess(outs, attempt, maxRetries)
      invariant trace == CloudTrace(token, prompt, attempt) + (if 0 < attempt < maxRetries then [Backoff(BackoffMs)] else [])
      decreases maxRetries - attempt
    {
      trace := trace + [CloudRequest(token, prompt)];
      var answer := CloudAnswer(CloudAttempt(outs, attempt));
      if answer.Some? {
        run := Run(answer.value, trace);
        return;
      }
      attempt := attempt + 1;
      if attempt < maxRetries {
        trace := trace + [Backoff(BackoffMs)];
      }
    }
    run := Run(AllFailedError, trace);
  }

  // ----- callHuggingFace -----

  /** `callHuggingFace(messages, params)`: local first (when enabled), then on-device (when
      enabled and available), then the cloud loop. The first tier with an answer wins; a tier
      is never consulted twice; every tier receives the same flattened prompt. The only way
      the dispatch rejects is the tier-2 guard reading a missing `window`. */
  function CallHuggingFace(cfg: Config, env: Backends, messages: Messages, params: Params): (run: Run)
    ensures var prompt := MessagesToPrompt(messages);
      cfg.useLocalFirst && LocalAnswer(env.local).Some? ==>
        run == Run(LocalAnswer(env.local).value, [LocalRequest(prompt)])
    ensures run.Rejected? <==> LocalResult(cfg, env).None? && NanoGuardThrows(cfg, env)
    ensures run.Rejected? ==> run == Rejected(WindowUndefinedError, LocalTrace(cfg, MessagesToPrompt(messages)))
    ensures !cfg.useLocalFirst ==> forall i | 0 <= i < |run.trace| :: !run.trace[i].LocalRequest?
    ensures !NanoEligible(cfg, env) ==> forall i | 0 <= i < |run.trace| :: !run.trace[i].NanoPrompt?
    ensures TierOrdered(run.trace)
  {
    var prompt := MessagesToPrompt(messages);
    var lt := LocalTrace(cfg, prompt);
    var nt := NanoTrace(cfg, env, prompt);
    match LocalResult(cfg, env)
    case Some(a) =>
      TierPieces(lt, [], []);
      assert lt + [] + [] == lt;
      Run(a, lt)
    case None =>
      if NanoGuardThrows(cfg, env) then
        TierPieces(lt, [], []);
        assert lt + [] + [] == lt;
        Rejected(WindowUndefinedError, lt)
      else match NanoResult(cfg, env)
      case Some(a) =>
        TierPieces(lt, nt, []);
        assert lt + nt + [] == lt + nt;
        Run(a, lt + nt)
      case None =>
        var cloud := CloudExpected(cfg.hfApiKey, cfg.maxRetries, env.cloud, prompt);
        CloudExpectedTier(cfg.hfApiKey, cfg.maxRetries, env.cloud, prompt);
        TierPieces(lt, nt, cloud.trace);
        Run(cloud.result, lt + nt + cloud.trace)
  }

  /** Every event of `t` belongs to `tier`. */
  predicate OfTier(t: seq<Event>, tier: Tier)
  {
    forall i | 0 <= i < |t| :: TierOf(t[i]) == tier
  }

  lemma CloudExpectedTier(token: string, maxRetries: int, outs: seq<CloudOutcome>, prompt: string)
    ensures OfTier(CloudExpected(token, maxRetries, outs, prompt).trace, CloudTier)
  {
  }

  /** A local part, an on-device part and a cloud part, in that order, are tier-ordered, and a
      missing part leaves no event of its kind. */
  lemma TierPieces(lt: seq<Event>, nt: seq<Event>, ct: seq<Event>)
    requires OfTier(lt, LocalTier) && OfTier(nt, NanoTier) && OfTier(ct, CloudTier)
    ensures TierOrdered(lt + nt + ct)
    ensures lt == [] ==> forall i | 0 <= i < |lt + nt + ct| :: !(lt + nt + ct)[i].LocalRequest?
    ensures nt == [] ==> forall i | 0 <= i < |lt + nt + ct| :: !(lt + nt + ct)[i].NanoPrompt?
  {
    var t := lt + nt + ct;
    forall i | 0 <= i < |t|
      ensures Rank(TierOf(t[i])) == if i < |lt| then 0 else if i < |lt| + |nt| then 1 else 2
    {
      if i < |lt| {
        assert t[i] == lt[i];
      } else if i < |lt| + |nt| {
        assert t[i] == nt[i - |lt|];
      } else {
        assert t[i] == ct[i - |lt| - |nt|];
      }
    }
  }

  /** The cloud tier alone: requests and waits only, at most `maxRetries` requests, and one
      wait fewer than requests. */
  lemma CloudExpectedCounts(token: string, maxRetries: int, outs: seq<CloudOutcome>, prompt: string)
    ensures var c := CloudExpected(token, maxRetries, outs, prompt);
      && CountLocal(c.trace) == 0 && CountNano(c.trace) == 0
      && CountCloud(c.trace) == (if token == "" then 0 else
           match FirstSuccess(outs, 0, maxRetries)
           case Some(k) => k + 1
           case None => Max0(maxRetries))
      && CountCloud(c.trace) <= Max0(maxRetries)
      && CountWaits(c.trace) == Max0(CountCloud(c.trace) - 1)
  {
    if token != "" {
      match FirstSuccess(outs, 0, maxRetries)
      case Some(k) => CloudTraceCounts(token, prompt, k + 1);
      case None => CloudTraceCounts(token, prompt, Max0(maxRetries));
    }
  }

  /** A dispatch's events are the local part, then the on-device part if the local tier gave
      no answer, then the cloud part if neither did. */
  lemma DispatchTrace(cfg: Config, env: Backends, messages: Messages, params: Params)
    ensures var prompt := MessagesToPrompt(messages);
      CallHuggingFace(cfg, env, messages, params).trace ==
        LocalTrace(cfg, prompt)
        + (if LocalResult(cfg, env).Some? then [] else NanoTrace(cfg, env, prompt))
        + (if !ReachesCloud(cfg, env) then []
           else CloudExpected(cfg.hfApiKey, cfg.maxRetries, env.cloud, prompt).trace)
  {
  }

  /** How often each tier is consulted: the local server once exactly when enabled, the
      on-device model once exactly when eligible and the local tier gave no answer, and the
      cloud at most `maxRetries` times with one wait fewer than requests. */
  lemma DispatchCounts(cfg: Config, env: Backends, messages: Messages, params: Params)
    ensures var run := CallHuggingFace(cfg, env, messages, params);
      && CountLocal(run.trace) == (if cfg.useLocalFirst then 1 else 0)
      && CountNano(run.trace) == (if NanoEligible(cfg, env) && LocalResult(cfg, env).None? then 1 else 0)
      && CountCloud(run.trace) <= Max0(cfg.maxRetries)
      && CountWaits(run.trace) == Max0(CountCloud(run.trace) - 1)
      && (!ReachesCloud(cfg, env) || cfg.hfApiKey == "" ==> CountCloud(run.trace) == 0)
  {
    var prompt := MessagesToPrompt(messages);
    var trace := CallHuggingFace(cfg, env, messages, params).trace;
    var lt := LocalTrace(cfg, prompt);
    var nt := if LocalResult(cfg, env).Some? then [] else NanoTrace(cfg, env, prompt);
    var cloud := CloudExpected(cfg.hfApiKey, cfg.maxRetries, env.cloud, prompt);
    var ct := if !ReachesCloud(cfg, env) then [] else cloud.trace;
    DispatchTrace(cfg, env, messages, params);
    EarlyTierCounts(cfg, env, prompt);
    CloudExpectedCounts(cfg.hfApiKey, cfg.maxRetries, env.cloud, prompt);
    PiecesCount(lt, nt, ct);
  }

  /** The counts of a trace made of an early-tier part, an on-device part and a cloud part. */
  lemma PiecesCount(lt: seq<Event>, nt: seq<Event>, ct: seq<Event>)
    requires CountNano(lt) == 0 && CountCloud(lt) == 0 && CountWaits(lt) == 0
    requires CountLocal(nt) == 0 && CountCloud(nt) == 0 && CountWaits(nt) == 0
    requires CountLocal(ct) == 0 && CountNano(ct) == 0
    ensures var t := lt + nt + ct;
      && CountLocal(t) == CountLocal(lt) && CountNano(t) == CountNano(nt)
      && CountCloud(t) == CountCloud(ct) && CountWaits(t) == CountWaits(ct)
  {
    CountsAppend(lt, nt);
    CountsAppend(lt + nt, ct);
  }

  lemma EarlyTierCounts(cfg: Config, env: Backends, prompt: string)
    ensures var lt := LocalTrace(cfg, prompt);
      && CountLocal(lt) == (if cfg.useLocalFirst then 1 else 0)
      && CountNano(lt) == 0 && CountCloud(lt) == 0 && CountWaits(lt) == 0
    ensures var nt := NanoTrace(cfg, env, prompt);
      && CountNano(nt) == (if NanoEligible(cfg, env) then 1 else 0)
      && CountLocal(nt) == 0 && CountCloud(nt) == 0 && CountWaits(nt) == 0
  {
    assert [LocalRequest(prompt)][1..] == [] && [NanoPrompt(prompt)][1..] == [];
  }

  /** A local tier that does not answer is left after its one request: the rest of the
      dispatch is exactly the dispatch with the local tier switched off. */
  lemma LocalFallsThrough(cfg: Config, env: Backends, messages: Messages, params: Params)
    requires cfg.useLocalFirst && LocalAnswer(env.local).None?
    ensures var run := CallHuggingFace(cfg, env, messages, params);
      var skip := CallHuggingFace(cfg.(useLocalFirst := false), env, messages, params);
      run == skip.(trace := [LocalRequest(MessagesToPrompt(messages))] + skip.trace)
  {
  }

  /** Reaching the cloud tier without a key gives the key error and issues no cloud request. */
  lemma NoKeyNoCloudRequest(cfg: Config, env: Backends, messages: Messages, params: Params)
    requires ReachesCloud(cfg, env) && cfg.hfApiKey == ""
    ensures var run := CallHuggingFace(cfg, env, messages, params);
      && run.result == NoKeyError
      && CountCloud(run.trace) == 0 && CountWaits(run.trace) == 0
  {
    DispatchCounts(cfg, env, messages, params);
  }

  /** When attempts `0 .. k-1` fail and attempt `k < maxRetries` succeeds, the dispatcher
      returns attempt `k`'s text after exactly `k + 1` cloud requests and `k` waits. */
  lemma CloudSucceedsAt(cfg: Config, env: Backends, messages: Messages, params: Params, k: nat)
    requires ReachesCloud(cfg, env) && cfg.hfApiKey != ""
    requires k < cfg.maxRetries
    requires forall j | 0 <= j < k :: CloudAnswer(CloudAttempt(env.cloud, j)).None?
    requires CloudAnswer(CloudAttempt(env.cloud, k)).Some?
    ensures var run := CallHuggingFace(cfg, env, messages, params);
      && run.result == CloudAnswer(CloudAttempt(env.cloud, k)).value
      && CountCloud(run.trace) == k + 1
      && CountWaits(run.trace) == k
  {
    FirstSuccessIsLeast(env.cloud, 0, cfg.maxRetries, k);
    DispatchTailCounts(cfg, env, messages, params);
  }

  /** When every attempt fails, all `maxRetries` requests are spent (none for a cap of zero
      or less), with one wait fewer, and the exhaustion sentinel is returned. */
  lemma CloudExhausted(cfg: Config, env: Backends, messages: Messages, params: Params)
    requires ReachesCloud(cfg, env) && cfg.hfApiKey != ""
    requires forall j | 0 <= j < cfg.maxRetries :: CloudAnswer(CloudAttempt(env.cloud, j)).None?
    ensures var run := CallHuggingFace(cfg, env, messages, params);
      && run.result == AllFailedError
      && CountCloud(run.trace) == Max0(cfg.maxRetries)
      && CountWaits(run.trace) == Max0(cfg.maxRetries - 1)
  {
    FirstSuccessNone(env.cloud, 0, cfg.maxRetries);
    DispatchTailCounts(cfg, env, messages, params);
  }

  lemma {:induction false} FirstSuccessIsLeast(outs: seq<CloudOutcome>, from: nat, limit: int, k: nat)
    requires from <= k < limit
    requires forall j | from <= j < k :: CloudAnswer(CloudAttempt(outs, j)).None?
    requires CloudAnswer(CloudAttempt(outs, k)).Some?
    ensures FirstSuccess(outs, from, limit) == Some(k)
    decreases k - from
  {
    if from < k {
      FirstSuccessIsLeast(outs, from + 1, limit, k);
    }
  }

  lemma {:induction false} FirstSuccessNone(outs: seq<CloudOutcome>, from: nat, limit: int)
    requires forall j | from <= j < limit :: CloudAnswer(CloudAttempt(outs, j)).None?
    ensures FirstSuccess(outs, from, limit) == None
    decreases limit - from
  {
    if from < limit {
      FirstSuccessNone(outs, from + 1, limit);
    }
  }

  /** The cloud part of a dispatch that reaches the cloud with a key. */
  lemma DispatchTailCounts(cfg: Config, env: Backends, messages: Messages, params: Params)
    requires ReachesCloud(cfg, env) && cfg.hfApiKey != ""
    ensures var run := CallHuggingFace(cfg, env, messages, params);
      match FirstSuccess(env.cloud, 0, cfg.maxRetries)
      case Some(k) =>
        run.result == CloudAnswer(CloudAttempt(env.cloud, k)).value
        && CountCloud(run.trace) == k + 1 && CountWaits(run.trace) == k
      case None =>
        run.result == AllFailedError
        && CountCloud(run.trace) == Max0(cfg.maxRetries) && CountWaits(run.trace) == Max0(cfg.maxRetries - 1)
  {
    var prompt := MessagesToPrompt(messages);
    var lt := LocalTrace(cfg, prompt);
    var nt := NanoTrace(cfg, env, prompt);
    var ct := CloudExpected(cfg.hfApiKey, cfg.maxRetries, env.cloud, prompt).trace;
    assert CallHuggingFace(cfg, env, messages, params).trace == lt + nt + ct;
    CloudExpectedCounts(cfg.hfApiKey, cfg.maxRetries, env.cloud, prompt);
    EarlyTierCounts(cfg, env, prompt);
    CountsAppend(lt, nt);
    CountsAppend(lt + nt, ct);
  }

  /** A dispatch that resolves does so with an answer of one of the tiers or one of the two
      sentinels, both of which start with `[ERROR]`; one that rejects does so with the
      `ReferenceError` of the tier-2 guard. */
  lemma DispatchResultSource(cfg: Config, env: Backends, messages: Messages, params: Params)
    ensures var run := CallHuggingFace(cfg, env, messages, params);
      run.Rejected? ==> run.error == WindowUndefinedError
    ensures var run := CallHuggingFace(cfg, env, messages, params);
      var r := if run.Run? then run.result else "";
      run.Run? ==>
      || Some(r) == LocalResult(cfg, env)
      || Some(r) == NanoResult(cfg, env)
      || (exists k | 0 <= k < Max0(cfg.maxRetries) :: Some(r) == CloudAnswer(CloudAttempt(env.cloud, k)))
      || r == NoKeyError
      || r == AllFailedError
    ensures ErrorMarker <= NoKeyError && ErrorMarker <= AllFailedError
  {
    if ReachesCloud(cfg, env) && cfg.hfApiKey != "" {
      match FirstSuccess(env.cloud, 0, cfg.maxRetries)
      case Some(k) => assert 0 <= k < Max0(cfg.maxRetries);
      case None =>
    }
  }

  /** The options argument never changes what the dispatcher does. */
  lemma ParamsIgnored(cfg: Config, env: Backends, messages: Messages, p1: Params, p2: Params)
    ensures CallHuggingFace(cfg, env, messages, p1) == CallHuggingFace(cfg, env, messages, p2)
  {
  }

  /** A whitespace-only local answer is truthy, so it wins, and is returned trimmed to `''`. */
  lemma LocalWhitespaceAnswerWins(cfg: Config, env: Backends, w: string, messages: Messages, params: Params)
    requires cfg.useLocalFirst && env.local == LocalReply(true, Some(w))
    requires w != "" && forall i | 0 <= i < |w| :: IsSpace(w[i])
    ensures CallHuggingFace(cfg, env, messages, params) == Run("", [LocalRequest(MessagesToPrompt(messages))])
  {
    TrimEmptyIff(w);
  }

  /** The on-device answer is returned as it is, even when it is empty or all white space,
      right after the one prompt to the session. */
  lemma NanoAnswerVerbatim(cfg: Config, env: Backends, messages: Messages, params: Params)
    requires NanoEligible(cfg, env) && LocalResult(cfg, env).None?
    requires env.nano.NanoReply?
    ensures var prompt := MessagesToPrompt(messages);
      CallHuggingFace(cfg, env, messages, params)
        == Run(env.nano.answer, LocalTrace(cfg, prompt) + [NanoPrompt(prompt)])
  {
  }

  /** With the on-device flag off, as shipped, the guard never reads `window`, so every
      dispatch resolves, wherever it runs. */
  lemma FlagOffResolves(cfg: Config, env: Backends, messages: Messages, params: Params)
    requires !cfg.useGeminiNano
    ensures CallHuggingFace(cfg, env, messages, params).Run?
  {
  }

  /** With the on-device flag on and no `window`, as in a service worker, a dispatch the local
      tier does not answer rejects with the `ReferenceError`, and neither the on-device model
      nor the cloud is ever asked. */
  lemma FlagOnWithoutWindowRejects(cfg: Config, env: Backends, messages: Messages, params: Params)
    requires cfg.useGeminiNano && env.window == NoWindow
    ensures var run := CallHuggingFace(cfg, env, messages, params);
      && (run.Rejected? <==> LocalResult(cfg, env).None?)
      && CountNano(run.trace) == 0 && CountCloud(run.trace) == 0 && CountWaits(run.trace) == 0
  {
    DispatchCounts(cfg, env, messages, params);
  }

  /** One user message "Hello", local tier off, no `window`, key "abc", two attempts: the
      first answers 503, the second `[{generated_text: "Hi there"}]`. The dispatcher returns
      "Hi there" after two cloud requests with one 2000 ms wait between them. */
  lemma HelloScenario()
    ensures var cfg := Config(false, false, "abc", 2);
      var env := Backends(NoWindow, LocalThrows, NanoThrows,
                          [CloudReply(false, None), CloudReply(true, Some("Hi there"))]);
      var messages := Entries([Message("user", Some("Hello"))]);
      CallHuggingFace(cfg, env, messages, Params(None)) ==
        Run("Hi there", [CloudRequest("abc", "Hello"), Backoff(2000), CloudRequest("abc", "Hello")])
  {
    var cfg := Config(false, false, "abc", 2);
    var env := Backends(NoWindow, LocalThrows, NanoThrows,
                        [CloudReply(false, None), CloudReply(true, Some("Hi there"))]);
    assert MessagesToPrompt(Entries([Message("user", Some("Hello"))])) == "Hello";
    assert FirstSuccess(env.cloud, 0, 2) == Some(1);
  }
}
