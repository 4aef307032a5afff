/**
 * The multi-model router of `ai_providers.py`: the static model registry,
 * credential lookup, availability, model selection with fallback, usage
 * accounting, the two pure message translations (Claude, Gemini) and the
 * operation-type token budget of `query_ai_with_fallback`.
 *
 * The outside world is a parameter: environment variables are a map, the
 * local model server's probe is the set of model names it reports installed
 * (empty when the probe fails), and every HTTP exchange is a `Wire` function
 * from the attempt number and the request built for it to a reply.
 */
module AiProviders {
  import opened Wrappers
  import opened Text

  datatype Provider = OpenAI | Claude | Gemini | Grok | Perplexity | DeepSeek | Ollama | LocalApi

  /** The `AIProvider` enum's string value, reported as `metadata["provider"]`. */
  function ProviderValue(p: Provider): string
  {
    match p
    case OpenAI => "openai"
    case Claude => "claude"
    case Gemini => "gemini"
    case Grok => "grok"
    case Perplexity => "perplexity"
    case DeepSeek => "deepseek"
    case Ollama => "ollama"
    case LocalApi => "local_api"
  }

  /**
   * Prices are the registry's decimal literals; the model only ever asks
   * whether the input price is zero (a free, local model).
   */
  datatype ModelConfig = ModelConfig(
    provider: Provider,
    modelName: string,
    apiEndpoint: string,
    maxTokens: nat,
    costPer1kInput: real,
    costPer1kOutput: real,
    supportsSystemPrompt: bool,
    requiresAuth: bool,
    timeout: nat)

  function Remote(p: Provider, name: string, endpoint: string, costIn: real, costOut: real): ModelConfig
  {
    ModelConfig(p, name, endpoint, 4000, costIn, costOut, true, true, 120)
  }

  function Local(name: string): ModelConfig
  {
    ModelConfig(Ollama, name, "http://localhost:11434/api/chat", 4000, 0.0, 0.0, true, false, 120)
  }

  /** `MODEL_CONFIGS`, keyed by model id. */
  const Configs: map<string, ModelConfig> := map[
    "gpt-4o" := Remote(OpenAI, "gpt-4o", "https://api.openai.com/v1/chat/completions", 0.005, 0.015),
    "gpt-4" := Remote(OpenAI, "gpt-4", "https://api.openai.com/v1/chat/completions", 0.03, 0.06),
    "claude-3-5-sonnet" := Remote(Claude, "claude-3-5-sonnet-20241022", "https://api.anthropic.com/v1/messages", 0.003, 0.015),
    "claude-3-opus" := Remote(Claude, "claude-3-opus-20240229", "https://api.anthropic.com/v1/messages", 0.015, 0.075),
    "gemini-pro" := Remote(Gemini, "gemini-pro", "https://generativelanguage.googleapis.com/v1beta/models/gemini-pro:generateContent", 0.00025, 0.0005),
    "gemini-1.5-pro" := Remote(Gemini, "gemini-1.5-pro", "https://generativelanguage.googleapis.com/v1beta/models/gemini-1.5-pro:generateContent", 0.00125, 0.005),
    "grok-beta" := Remote(Grok, "grok-beta", "https://api.x.ai/v1/chat/completions", 0.005, 0.015),
    "pplx-70b-online" := Remote(Perplexity, "llama-3.1-70b-instruct", "https://api.perplexity.ai/chat/completions", 0.001, 0.001),
    "deepseek-chat" := Remote(DeepSeek, "deepseek-chat", "https://api.deepseek.com/chat/completions", 0.00014, 0.00028),
    "llama3.2" := Local("llama3.2:latest"),
    "code-llama" := Local("codellama:latest"),
    "qwen2.5" := Local("qwen2.5:latest")
  ]

  /** The dict's iteration order, used where the source walks `MODEL_CONFIGS`. */
  const ModelOrder: seq<string> := [
    "gpt-4o", "gpt-4", "claude-3-5-sonnet", "claude-3-opus", "gemini-pro", "gemini-1.5-pro",
    "grok-beta", "pplx-70b-online", "deepseek-chat", "llama3.2", "code-llama", "qwen2.5"]

  /** `fallback_models` as `AIModelManager.__init__` sets it. */
  const FallbackModels: seq<string> := ["claude-3-5-sonnet", "gemini-1.5-pro", "grok-beta", "llama3.2", "pplx-70b-online"]

  /** The registry order lists exactly the configured models. */
  lemma RegistryKeys()
    ensures forall id :: id in Configs <==> id in ModelOrder
  {
  }

  /** The free models are exactly the local ones, and only they need no key. */
  lemma RegistryLocalModels()
    ensures forall id :: id in Configs ==> (Configs[id].costPer1kInput == 0.0 <==> Configs[id].provider == Ollama)
    ensures forall id :: id in Configs ==> (Configs[id].requiresAuth <==> Configs[id].provider != Ollama)
  {
  }

  /** Environment variables, and what the local model server reports as installed. */
  datatype Host = Host(env: map<string, string>, installedLocal: set<string>)

  /** The credential variables tried for a provider, in order. */
  function KeyNames(p: Provider): seq<string>
  {
    match p
    case OpenAI => ["OPENAI_API_KEY", "CHATGPT_COOKIE"]
    case Claude => ["ANTHROPIC_API_KEY", "CLAUDE_API_KEY"]
    case Gemini => ["GEMINI_API_KEY", "GOOGLE_API_KEY"]
    case Grok => ["GROK_API_KEY", "XAI_API_KEY"]
    case Perplexity => ["PERPLEXITY_API_KEY", "PPLX_API_KEY"]
    case DeepSeek => ["DEEPSEEK_API_KEY"]
    case Ollama => []
    case LocalApi => ["LOCAL_API_KEY"]
  }

  /** A variable is usable when it is set and not blank. */
  predicate Usable(env: map<string, string>, name: string)
  {
    name in env && Strip(env[name]) != []
  }

  /** The position of the first entry of `xs` that satisfies `p`. */
  function FirstWhere(xs: seq<string>, p: string -> bool): (r: Option<nat>)
    ensures r.Some? ==> r.value < |xs| && p(xs[r.value]) && forall j :: 0 <= j < r.value ==> !p(xs[j])
    ensures r.None? ==> forall j :: 0 <= j < |xs| ==> !p(xs[j])
  {
    if xs == [] then None
    else if p(xs[0]) then Some(0)
    else
      var tail := xs[1..];
      assert forall j :: 1 <= j < |xs| ==> xs[j] == tail[j - 1];
      match FirstWhere(tail, p)
      case None => None
      case Some(k) => assert xs[k + 1] == tail[k]; Some(k + 1)
  }

  /** The loop of `get_api_key`: the position of the first usable variable. */
  function FirstUsable(env: map<string, string>, names: seq<string>): (r: Option<nat>)
    ensures r.Some? ==> r.value < |names| && Usable(env, names[r.value]) &&
                        forall j :: 0 <= j < r.value ==> !Usable(env, names[j])
    ensures r.None? ==> forall j :: 0 <= j < |names| ==> !Usable(env, names[j])
  {
    FirstWhere(names, name => Usable(env, name))
  }

  /**
   * `get_api_key`: the first of the provider's variables that is set and not
   * blank, trimmed; none for the local provider, which has no variables.
   */
  function GetApiKey(env: map<string, string>, p: Provider): (r: Option<string>)
    ensures p == Ollama ==> r == None
    ensures r.Some? <==> exists i :: 0 <= i < |KeyNames(p)| && Usable(env, KeyNames(p)[i])
    ensures r.Some? ==> exists i :: 0 <= i < |KeyNames(p)| && Usable(env, KeyNames(p)[i]) &&
                          r.value == Strip(env[KeyNames(p)[i]]) &&
                          forall j :: 0 <= j < i ==> !Usable(env, KeyNames(p)[j])
    ensures r.Some? ==> r.value != [] && Trimmed(r.value)
  {
    var names := KeyNames(p);
    match FirstUsable(env, names)
    case None => None
    case Some(i) =>
      var key := Strip(env[names[i]]);
      assert Usable(env, names[i]) && key != [] && Trimmed(key);
      Some(key)
  }

  /** `is_model_available`. */
  predicate IsModelAvailable(host: Host, id: string)
  {
    if id !in Configs then false
    else
      var config := Configs[id];
      if config.provider == Ollama then config.modelName in host.installedLocal
      else !(config.requiresAuth && GetApiKey(host.env, config.provider).None?)
  }

  /**
   * Availability in terms of the inputs: unknown ids never, local models
   * exactly when the probe lists their internal name, every other model
   * exactly when one of its provider's variables is set and not blank.
   */
  lemma AvailabilityCases(host: Host, id: string)
    ensures id !in Configs ==> !IsModelAvailable(host, id)
    ensures id in Configs && Configs[id].provider == Ollama ==>
              (IsModelAvailable(host, id) <==> Configs[id].modelName in host.installedLocal)
    ensures id in Configs && Configs[id].provider != Ollama ==>
              (IsModelAvailable(host, id) <==>
                 exists i :: 0 <= i < |KeyNames(Configs[id].provider)| && Usable(host.env, KeyNames(Configs[id].provider)[i]))
  {
  }

  /** The fallback loop of `get_best_available_model`: the first available entry. */
  function FirstAvailable(host: Host, models: seq<string>): (r: Option<nat>)
    ensures r.Some? ==> r.value < |models| && IsModelAvailable(host, models[r.value]) &&
                        forall j :: 0 <= j < r.value ==> !IsModelAvailable(host, models[j])
    ensures r.None? ==> forall j :: 0 <= j < |models| ==> !IsModelAvailable(host, models[j])
  {
    FirstWhere(models, id => IsModelAvailable(host, id))
  }

  /** Python truthiness of an optional string argument. */
  predicate Given(s: Option<string>)
  {
    s.Some? && s.value != ""
  }

  /** `get_best_available_model`. */
  function BestAvailableModel(host: Host, defaultModel: string, preferred: Option<string>): (r: string)
    ensures Given(preferred) && IsModelAvailable(host, preferred.value) ==> r == preferred.value
    ensures !(Given(preferred) && IsModelAvailable(host, preferred.value)) && IsModelAvailable(host, defaultModel) ==>
              r == defaultModel
    ensures !(Given(preferred) && IsModelAvailable(host, preferred.value)) && !IsModelAvailable(host, defaultModel) ==>
              (r == defaultModel && forall j :: 0 <= j < |FallbackModels| ==> !IsModelAvailable(host, FallbackModels[j])) ||
              (exists k :: 0 <= k < |FallbackModels| && r == FallbackModels[k] && IsModelAvailable(host, r) &&
                 forall j :: 0 <= j < k ==> !IsModelAvailable(host, FallbackModels[j]))
  {
    if Given(preferred) && IsModelAvailable(host, preferred.value) then preferred.value
    else if IsModelAvailable(host, defaultModel) then defaultModel
    else match FirstAvailable(host, FallbackModels)
      case Some(k) => FallbackModels[k]
      case None => defaultModel
  }

  /** What selection returns is available, unless nothing it may pick is and it falls back to the default. */
  lemma SelectionAvailableOrDefault(host: Host, defaultModel: string, preferred: Option<string>)
    ensures var r := BestAvailableModel(host, defaultModel, preferred);
            IsModelAvailable(host, r) || (r == defaultModel && forall j :: 0 <= j < |FallbackModels| ==> !IsModelAvailable(host, FallbackModels[j]))
  {
  }

  /** One chat message as the callers pass it: `{"role": ..., "content": ...}`. */
  datatype Message = Message(role: string, content: string)

  /** The loop of `_query_claude` that pulls system messages out of the list. */
  function ClaudeSplit(msgs: seq<Message>, system: string, kept: seq<Message>): (string, seq<Message>)
  {
    if msgs == [] then (system, kept)
    else if msgs[0].role == "system" then ClaudeSplit(msgs[1..], msgs[0].content, kept)
    else ClaudeSplit(msgs[1..], system, kept + [msgs[0]])
  }

  /** Reference definition: the messages that are not system messages, in order. */
  function NonSystem(msgs: seq<Message>): (r: seq<Message>)
    ensures forall i :: 0 <= i < |r| ==> r[i].role != "system" && r[i] in msgs
  {
    if msgs == [] then []
    else if msgs[0].role == "system" then NonSystem(msgs[1..])
    else [msgs[0]] + NonSystem(msgs[1..])
  }

  /** Reference definition: the content of the last system message, if any. */
  function LastSystem(msgs: seq<Message>): (r: Option<string>)
    ensures r.Some? <==> exists i :: 0 <= i < |msgs| && msgs[i].role == "system"
    ensures r.Some? ==> exists i :: 0 <= i < |msgs| && msgs[i].role == "system" && r.value == msgs[i].content &&
                          forall j :: i < j < |msgs| ==> msgs[j].role != "system"
  {
    if msgs == [] then None
    else
      var last := msgs[|msgs| - 1];
      if last.role == "system" then Some(last.content)
      else
        var r := LastSystem(msgs[..|msgs| - 1]);
        assert forall i :: 0 <= i < |msgs| - 1 ==> msgs[..|msgs| - 1][i] == msgs[i];
        r
  }

  lemma {:induction false} ClaudeSplitMeaning(msgs: seq<Message>, system: string, kept: seq<Message>)
    ensures ClaudeSplit(msgs, system, kept).1 == kept + NonSystem(msgs)
    ensures ClaudeSplit(msgs, system, kept).0 == match LastSystem(msgs) case Some(c) => c case None => system
  {
    if msgs != [] {
      var next := if msgs[0].role == "system" then msgs[0].content else system;
      var kept' := if msgs[0].role == "system" then kept else kept + [msgs[0]];
      ClaudeSplitMeaning(msgs[1..], next, kept');
      LastSystemCons(msgs);
    }
  }

  lemma {:induction false} LastSystemCons(msgs: seq<Message>)
    requires msgs != []
    ensures LastSystem(msgs) == match LastSystem(msgs[1..])
                                case Some(c) => Some(c)
                                case None => if msgs[0].role == "system" then Some(msgs[0].content) else None
    decreases |msgs|
  {
    if |msgs| > 1 {
      var init := msgs[..|msgs| - 1];
      assert init[1..] == msgs[1..][..|msgs[1..]| - 1];
      assert msgs[1..][|msgs[1..]| - 1] == msgs[|msgs| - 1];
      if msgs[|msgs| - 1].role != "system" {
        LastSystemCons(init);
        assert init[0] == msgs[0];
      }
    }
  }

  /** The Claude request's message list and optional top-level `system` field. */
  datatype ClaudeMessages = ClaudeMessages(system: Option<string>, messages: seq<Message>)

  function ToClaude(msgs: seq<Message>): ClaudeMessages
  {
    var (system, kept) := ClaudeSplit(msgs, "", []);
    ClaudeMessages(if system != "" then Some(system) else None, kept)
  }

  /**
   * The Claude translation drops every system message and keeps the rest in
   * order; `system` is the last system message's content, present only when
   * that content is not empty.
   */
  lemma ClaudeTranslation(msgs: seq<Message>)
    ensures ToClaude(msgs).messages == NonSystem(msgs)
    ensures ToClaude(msgs).system == match LastSystem(msgs)
                                     case Some(c) => if c != "" then Some(c) else None
                                     case None => None
  {
    ClaudeSplitMeaning(msgs, "", []);
  }

  /** One Gemini `contents` entry: a role and its single text part. */
  datatype GeminiContent = GeminiContent(role: string, text: string)

  function GeminiRole(role: string): string
  {
    if role == "user" || role == "system" then "user" else "model"
  }

  /** The loop of `_query_gemini`: every message is kept, system messages speak as the user. */
  function ToGemini(msgs: seq<Message>): (r: seq<GeminiContent>)
    ensures |r| == |msgs|
    ensures forall i :: 0 <= i < |msgs| ==>
              (r[i].text == msgs[i].content &&
               (r[i].role == "user" <==> msgs[i].role in {"user", "system"}) &&
               (r[i].role == "model" <==> msgs[i].role !in {"user", "system"}))
  {
    if msgs == [] then []
    else [GeminiContent(GeminiRole(msgs[0].role), msgs[0].content)] + ToGemini(msgs[1..])
  }

  /** `max_tokens_map.get(operation_type, 2000)` in `query_ai_with_fallback`. */
  function TokenBudget(operationType: string): (r: nat)
  {
    if operationType == "analysis" then 4000
    else if operationType == "exploit" then 3000
    else 2000
  }

  lemma TokenBudgetValues(operationType: string)
    ensures TokenBudget(operationType) in {2000, 3000, 4000}
    ensures TokenBudget(operationType) == 4000 <==> operationType == "analysis"
    ensures TokenBudget(operationType) == 3000 <==> operationType == "exploit"
  {
  }

  /** `max_tokens or config.max_tokens`: an absent or zero budget gives the model's own limit. */
  function EffectiveMaxTokens(maxTokens: Option<int>, config: ModelConfig): (r: int)
    ensures maxTokens.Some? && maxTokens.value != 0 ==> r == maxTokens.value
    ensures (maxTokens.None? || maxTokens.value == 0) ==> r == config.maxTokens
  {
    if maxTokens.Some? && maxTokens.value != 0 then maxTokens.value else config.maxTokens
  }

  /** The request each adapter sends, without headers, temperature or transport. */
  datatype WireRequest =
    | ChatCompletion(endpoint: string, model: string, messages: seq<Message>, maxTokens: int)
    | ClaudeRequest(endpoint: string, model: string, maxTokens: int, claude: ClaudeMessages)
    | GeminiRequest(endpoint: string, contents: seq<GeminiContent>, maxOutputTokens: int)
    | OllamaRequest(endpoint: string, model: string, messages: seq<Message>, numPredict: int)

  function BuildRequest(config: ModelConfig, msgs: seq<Message>, maxTokens: Option<int>): WireRequest
  {
    var n := EffectiveMaxTokens(maxTokens, config);
    match config.provider
    case Claude => ClaudeRequest(config.apiEndpoint, config.modelName, n, ToClaude(msgs))
    case Gemini => GeminiRequest(config.apiEndpoint, ToGemini(msgs), n)
    case Ollama => OllamaRequest(config.apiEndpoint, config.modelName, msgs, n)
    case _ => ChatCompletion(config.apiEndpoint, config.modelName, msgs, n)
  }

  /** An HTTP exchange: a 200 reply's text, or the error raised. */
  datatype Reply = Text(text: string) | Failure(error: string)

  /** The outcome of the `attempt`-th provider call of one query, given the request it sends. */
  type Wire = (nat, WireRequest) -> Reply

  function ProviderLabel(p: Provider): string
  {
    match p
    case OpenAI => "OpenAI"
    case Claude => "Anthropic"
    case Gemini => "Gemini"
    case Grok => "Grok"
    case Perplexity => "Perplexity"
    case DeepSeek => "DeepSeek"
    case Ollama => "Ollama"
    case LocalApi => "Local API"
  }

  /**
   * The provider dispatch of `query_model` and the adapters' own key check:
   * no request is sent when the provider is unsupported or its key is missing.
   */
  function Dispatch(host: Host, config: ModelConfig, msgs: seq<Message>, maxTokens: Option<int>, wire: Wire, attempt: nat): (r: Reply)
    ensures config.provider == LocalApi ==> r.Failure?
    ensures config.provider != Ollama && GetApiKey(host.env, config.provider).None? ==> r.Failure?
    ensures config.provider != LocalApi && (config.provider == Ollama || GetApiKey(host.env, config.provider).Some?) ==>
              r == wire(attempt, BuildRequest(config, msgs, maxTokens))
  {
    if config.provider == LocalApi then Failure("Unsupported provider: local_api")
    else if config.provider != Ollama && GetApiKey(host.env, config.provider).None? then
      Failure(ProviderLabel(config.provider) + " API key not found")
    else wire(attempt, BuildRequest(config, msgs, maxTokens))
  }

  /**
   * The estimated cost: exactly zero for free models; for priced models the
   * float computation is not modelled and only its inputs are kept.
   */
  datatype Cost = Free | Priced(tokens: nat, model: string)

  function EstimatedCost(tokens: nat, id: string, config: ModelConfig): (c: Cost)
    ensures c.Free? <==> config.costPer1kInput == 0.0
  {
    if config.costPer1kInput == 0.0 then Free else Priced(tokens, id)
  }

  datatype Metadata = Metadata(model: string, provider: string, tokensUsed: nat, estimatedCost: Cost)

  /** The reply and metadata `query_model` returns when the registry model `m` answers `text`. */
  function Answer(m: string, text: string): (string, Metadata)
    requires m in Configs
  {
    var tokens := |text| / 4;
    (text, Metadata(m, ProviderValue(Configs[m].provider), tokens, EstimatedCost(tokens, m, Configs[m])))
  }

  /** One attempt of `query_model` with the registry model `m`: its answer, or the error it raises. */
  function AttemptResult(host: Host, m: string, msgs: seq<Message>, maxTokens: Option<int>, wire: Wire, attempt: nat)
    : Result<(string, Metadata)>
    requires m in Configs
  {
    match Dispatch(host, Configs[m], msgs, maxTokens, wire, attempt)
    case Text(t) => Ok(Answer(m, t))
    case Failure(e) => Err("All AI models failed. Last error: " + e)
  }

  /** The retry condition of `query_model`: the caller named the failed model and it is not the default. */
  predicate RetriesAfter(defaultModel: string, modelName: Option<string>, m: string)
  {
    m != defaultModel && modelName == Some(m)
  }

  /**
   * The retry `query_model(messages, None, max_tokens)`: selection with no
   * preference, one attempt, never a further retry. A selected id missing
   * from the registry raises `KeyError` before anything is attempted.
   */
  function RetryOutcome(host: Host, defaultModel: string, msgs: seq<Message>, maxTokens: Option<int>, wire: Wire)
    : (Result<(string, Metadata)>, seq<string>)
  {
    var m := BestAvailableModel(host, defaultModel, None);
    if m !in Configs then (Err("KeyError: " + m), [])
    else (AttemptResult(host, m, msgs, maxTokens, wire, 1), [m])
  }

  /**
   * What `query_model` returns, with the models it attempts in order: the
   * selected model's answer; after its failure the retry when
   * `RetriesAfter` holds; otherwise the "All AI models failed" error.
   */
  function QueryOutcome(host: Host, defaultModel: string, modelName: Option<string>, msgs: seq<Message>,
                        maxTokens: Option<int>, wire: Wire): (Result<(string, Metadata)>, seq<string>)
  {
    var m := BestAvailableModel(host, defaultModel, modelName);
    if m !in Configs then (Err("KeyError: " + m), [])
    else if Dispatch(host, Configs[m], msgs, maxTokens, wire, 0).Failure? && RetriesAfter(defaultModel, modelName, m) then
      var retry := RetryOutcome(host, defaultModel, msgs, maxTokens, wire);
      (retry.0, [m] + retry.1)
    else (AttemptResult(host, m, msgs, maxTokens, wire, 0), [m])
  }

  /**
   * A query succeeds exactly with the text the last attempted model's
   * provider returned, and its metadata names that model, its provider and
   * a token count of a quarter of the text's length.
   */
  lemma QueryAnswerIsLastReply(host: Host, defaultModel: string, modelName: Option<string>, msgs: seq<Message>,
                               maxTokens: Option<int>, wire: Wire)
    ensures var o := QueryOutcome(host, defaultModel, modelName, msgs, maxTokens, wire);
            o.0.Ok? ==>
              o.1 != [] && o.1[|o.1| - 1] in Configs &&
              Dispatch(host, Configs[o.1[|o.1| - 1]], msgs, maxTokens, wire, |o.1| - 1) == Text(o.0.value.0) &&
              o.0.value.1.model == o.1[|o.1| - 1] &&
              o.0.value.1.provider == ProviderValue(Configs[o.1[|o.1| - 1]].provider) &&
              o.0.value.1.tokensUsed == |o.0.value.0| / 4
  {
  }

  /** When the selected model answers at once, that answer is returned and nothing else is attempted. */
  lemma QueryFirstReplyWins(host: Host, defaultModel: string, modelName: Option<string>, msgs: seq<Message>,
                            maxTokens: Option<int>, wire: Wire)
    ensures var m := BestAvailableModel(host, defaultModel, modelName);
            m in Configs && Dispatch(host, Configs[m], msgs, maxTokens, wire, 0).Text? ==>
              QueryOutcome(host, defaultModel, modelName, msgs, maxTokens, wire) ==
                (Ok(Answer(m, Dispatch(host, Configs[m], msgs, maxTokens, wire, 0).text)), [m])
  {
  }

  /**
   * A second model is attempted exactly when the first attempt failed, the
   * caller named that model and it is not the default; the second is the
   * selection with no preference.
   */
  lemma QueryRetriesOnlyNamedModel(host: Host, defaultModel: string, modelName: Option<string>, msgs: seq<Message>,
                                   maxTokens: Option<int>, wire: Wire)
    ensures var o := QueryOutcome(host, defaultModel, modelName, msgs, maxTokens, wire);
            var m := BestAvailableModel(host, defaultModel, modelName);
            (|o.1| == 2 <==>
               m in Configs && Dispatch(host, Configs[m], msgs, maxTokens, wire, 0).Failure? &&
               RetriesAfter(defaultModel, modelName, m) && BestAvailableModel(host, defaultModel, None) in Configs) &&
            (|o.1| == 2 ==> o.1 == [m, BestAvailableModel(host, defaultModel, None)]) &&
            |o.1| <= 2 && (modelName.None? ==> |o.1| <= 1)
  {
  }

  /**
   * A failed query reports either the missing registry entry or the last
   * attempted provider's error.
   */
  lemma QueryErrorIsLastFailure(host: Host, defaultModel: string, modelName: Option<string>, msgs: seq<Message>,
                                maxTokens: Option<int>, wire: Wire)
    ensures var o := QueryOutcome(host, defaultModel, modelName, msgs, maxTokens, wire);
            o.0.Err? ==>
              StartsWith(o.0.msg, "KeyError: ") ||
              (o.1 != [] && o.1[|o.1| - 1] in Configs &&
               Dispatch(host, Configs[o.1[|o.1| - 1]], msgs, maxTokens, wire, |o.1| - 1).Failure? &&
               o.0.msg == "All AI models failed. Last error: " +
                          Dispatch(host, Configs[o.1[|o.1| - 1]], msgs, maxTokens, wire, |o.1| - 1).error)
  {
    var m := BestAvailableModel(host, defaultModel, modelName);
    var m2 := BestAvailableModel(host, defaultModel, None);
    if m !in Configs {
      KeyErrorPrefix(m);
    } else if Dispatch(host, Configs[m], msgs, maxTokens, wire, 0).Failure? && RetriesAfter(defaultModel, modelName, m) {
      if m2 !in Configs {
        KeyErrorPrefix(m2);
      }
    }
  }

  lemma KeyErrorPrefix(m: string)
    ensures StartsWith("KeyError: " + m, "KeyError: ")
  {
    assert ("KeyError: " + m)[..|"KeyError: "|] == "KeyError: ";
  }

  /** The value `AI_MODEL_PREFERENCE` supplies when `query_ai_with_fallback` is given no preference. */
  function Preference(host: Host, preferred: Option<string>): Option<string>
  {
    if Given(preferred) then preferred
    else if "AI_MODEL_PREFERENCE" in host.env then Some(host.env["AI_MODEL_PREFERENCE"])
    else None
  }

  /** The token limit a request carries. */
  function RequestBudget(req: WireRequest): int
  {
    match req
    case ChatCompletion(_, _, _, n) => n
    case ClaudeRequest(_, _, n, _) => n
    case GeminiRequest(_, _, n) => n
    case OllamaRequest(_, _, _, n) => n
  }

  /** Every request `query_ai_with_fallback` sends carries its operation type's token budget. */
  lemma BudgetReachesRequest(config: ModelConfig, msgs: seq<Message>, operationType: string)
    ensures RequestBudget(BuildRequest(config, msgs, Some(TokenBudget(operationType)))) == TokenBudget(operationType)
  {
  }

  /** Occurrences of `m` in a list of attempted models. */
  function Occurrences(tried: seq<string>, m: string): nat
  {
    if tried == [] then 0 else (if tried[0] == m then 1 else 0) + Occurrences(tried[1..], m)
  }

  /** One attempt of `m` followed by the attempts `rest`. */
  lemma OccurrencesCons(m: string, rest: seq<string>)
    ensures forall k :: Occurrences([m] + rest, k) == (if k == m then 1 else 0) + Occurrences(rest, k)
  {
    assert ([m] + rest)[1..] == rest;
  }

  /** Sum of the counters, in the order the models were first used. */
  function SumCounts(order: seq<string>, usage: map<string, nat>): nat
    requires forall i :: 0 <= i < |order| ==> order[i] in usage
  {
    if order == [] then 0 else usage[order[0]] + SumCounts(order[1..], usage)
  }

  /** Python's `max(items, key=count)`: the first model, in insertion order, with the greatest count. */
  function MaxLoop(order: seq<string>, usage: map<string, nat>, best: string): string
    requires forall i :: 0 <= i < |order| ==> order[i] in usage
    requires best in usage
  {
    if order == [] then best
    else MaxLoop(order[1..], usage, if usage[order[0]] > usage[best] then order[0] else best)
  }

  lemma {:induction false} MaxLoopIsMax(order: seq<string>, usage: map<string, nat>, best: string)
    requires forall i :: 0 <= i < |order| ==> order[i] in usage
    requires best in usage
    ensures var m := MaxLoop(order, usage, best);
            m in usage && usage[m] >= usage[best] &&
            (m == best || m in order) &&
            forall i :: 0 <= i < |order| ==> usage[order[i]] <= usage[m]
  {
    if order != [] {
      var next := if usage[order[0]] > usage[best] then order[0] else best;
      MaxLoopIsMax(order[1..], usage, next);
    }
  }

  /** The model `get_usage_stats` reports as most used, if any model was used. */
  function MostUsed(order: seq<string>, usage: map<string, nat>): Option<string>
    requires forall i :: 0 <= i < |order| ==> order[i] in usage
  {
    if order == [] then None else Some(MaxLoop(order[1..], usage, order[0]))
  }

  lemma MostUsedIsMax(order: seq<string>, usage: map<string, nat>)
    requires forall m :: m in usage <==> m in order
    ensures MostUsed(order, usage).None? <==> usage == map[]
    ensures MostUsed(order, usage).Some? ==>
              (MostUsed(order, usage).value in usage &&
               forall k :: k in usage ==> usage[k] <= usage[MostUsed(order, usage).value])
  {
    if order != [] {
      var most := MaxLoop(order[1..], usage, order[0]);
      MaxLoopIsMax(order[1..], usage, order[0]);
      forall k | k in usage ensures usage[k] <= usage[most] {
        var i :| 0 <= i < |order| && order[i] == k;
        if i > 0 { assert order[1..][i - 1] == k; }
      }
    } else {
      assert usage == map[];
    }
  }

  /** Totals reported by `get_usage_stats`. */
  datatype UsageStats = UsageStats(
    defaultModel: string,
    availableModels: seq<string>,
    totalModels: nat,
    totalCalls: nat,
    usageByModel: map<string, nat>,
    mostUsedModel: Option<string>)

  /** The available models in registry order. */
  function AvailableIn(host: Host, ids: seq<string>): (r: seq<string>)
    ensures forall i :: 0 <= i < |r| ==> r[i] in ids && IsModelAvailable(host, r[i])
    ensures forall i :: 0 <= i < |ids| && IsModelAvailable(host, ids[i]) ==> ids[i] in r
  {
    if ids == [] then []
    else (if IsModelAvailable(host, ids[0]) then [ids[0]] else []) + AvailableIn(host, ids[1..])
  }

  /**
   * `AIModelManager`: the default model, and the usage counters `_track_usage`
   * updates in place. `usageOrder` is the dict's insertion order, which decides
   * which of several equally used models `max` reports.
   */
  class AIModelManager {
    const defaultModel: string
    var usage: map<string, nat>
    var usageOrder: seq<string>

    ghost predicate Valid()
      reads this
    {
      UsageValid(usage, usageOrder)
    }

    /** A model's counter, zero when it has never been attempted. */
    function Count(m: string): nat
      reads this
    {
      if m in usage then usage[m] else 0
    }

    function TotalCalls(): nat
      reads this
      requires Valid()
    {
      SumCounts(usageOrder, usage)
    }

    /** `__init__`: `DEFAULT_AI_MODEL`, else `gpt-4o`; no usage yet. */
    constructor (env: map<string, string>)
      ensures Valid()
      ensures defaultModel == if "DEFAULT_AI_MODEL" in env then env["DEFAULT_AI_MODEL"] else "gpt-4o"
      ensures usage == map[] && usageOrder == []
    {
      defaultModel := if "DEFAULT_AI_MODEL" in env then env["DEFAULT_AI_MODEL"] else "gpt-4o";
      usage := map[];
      usageOrder := [];
    }

    /** `_track_usage`: one more call for `m`, nothing else changes. */
    method TrackUsage(m: string)
      requires Valid()
      modifies this
      ensures Valid()
      ensures usage == old(usage)[m := old(Count(m)) + 1]
      ensures usageOrder == if m in old(usage) then old(usageOrder) else old(usageOrder) + [m]
      ensures forall k :: Count(k) == old(Count(k)) + (if k == m then 1 else 0)
      ensures TotalCalls() == old(TotalCalls()) + 1
    {
      ghost var before := usage;
      ghost var order := usageOrder;
      if m in usage {
        SumCountsBump(usageOrder, usage, m);
        usage := usage[m := usage[m] + 1];
      } else {
        SumCountsNew(usageOrder, usage, m);
        usageOrder := usageOrder + [m];
        usage := usage[m := 1];
      }
      TrackedValid(before, order, m, usage, usageOrder);
    }

    /** `get_usage_stats`. */
    function GetUsageStats(host: Host): (s: UsageStats)
      reads this
      requires Valid()
      ensures s.totalCalls == TotalCalls()
      ensures s.totalModels == |Configs|
      ensures s.mostUsedModel.None? <==> usage == map[]
      ensures s.mostUsedModel.Some? ==>
                (s.mostUsedModel.value in usage &&
                 forall k :: k in usage ==> usage[k] <= usage[s.mostUsedModel.value])
      ensures forall i :: 0 <= i < |s.availableModels| ==> s.availableModels[i] in Configs && IsModelAvailable(host, s.availableModels[i])
    {
      MostUsedIsMax(usageOrder, usage);
      var most := MostUsed(usageOrder, usage);
      UsageStats(defaultModel, AvailableIn(host, ModelOrder), |Configs|, SumCounts(usageOrder, usage), usage, most)
    }

    /**
     * `query_model`: selects a model, counts the attempt, dispatches, and on
     * failure retries through selection once when the caller named the model
     * that failed and it is not the default. `tried` lists the models
     * attempted, in order. An id missing from the registry (only possible for
     * the default, which comes from the environment) raises before anything is
     * counted.
     */
    method QueryModel(host: Host, msgs: seq<Message>, modelName: Option<string>, maxTokens: Option<int>, wire: Wire)
      returns (r: Result<(string, Metadata)>, tried: seq<string>)
      requires Valid()
      modifies this
      ensures Valid()
      ensures |tried| <= 2
      ensures forall k :: Count(k) == old(Count(k)) + Occurrences(tried, k)
      ensures TotalCalls() == old(TotalCalls()) + |tried|
      ensures tried != [] ==> tried[0] == BestAvailableModel(host, defaultModel, modelName)
      ensures |tried| == 2 ==> tried[0] != defaultModel && modelName == Some(tried[0]) &&
                               tried[1] == BestAvailableModel(host, defaultModel, None)
      ensures r.Ok? ==> tried != [] && r.value.1.model == tried[|tried| - 1] &&
                        r.value.1.tokensUsed == |r.value.0| / 4
      ensures (r, tried) == QueryOutcome(host, defaultModel, modelName, msgs, maxTokens, wire)
      decreases if modelName.Some? then 1 else 0
    {
      var selected := BestAvailableModel(host, defaultModel, modelName);
      if selected !in Configs {
        return Err("KeyError: " + selected), [];
      }
      var config := Configs[selected];
      TrackUsage(selected);
      OccurrencesCons(selected, []);
      assert [selected] + [] == [selected];
      var reply := Dispatch(host, config, msgs, maxTokens, wire, 0);
      if reply.Text? {
        return Ok(Answer(selected, reply.text)), [selected];
      }
      if selected != defaultModel && modelName == Some(selected) {
        var again, tried2 := QueryModelRetry(host, msgs, maxTokens, wire);
        OccurrencesCons(selected, tried2);
        return again, [selected] + tried2;
      }
      return Err("All AI models failed. Last error: " + reply.error), [selected];
    }

    /**
     * The recursive `query_model(messages, None, max_tokens)` call. With no
     * model named, the retry condition `model_name == selected` cannot hold,
     * so this attempt is the last.
     */
    method QueryModelRetry(host: Host, msgs: seq<Message>, maxTokens: Option<int>, wire: Wire)
      returns (r: Result<(string, Metadata)>, tried: seq<string>)
      requires Valid()
      modifies this
      ensures Valid()
      ensures |tried| <= 1
      ensures forall k :: Count(k) == old(Count(k)) + Occurrences(tried, k)
      ensures TotalCalls() == old(TotalCalls()) + |tried|
      ensures tried != [] ==> tried[0] == BestAvailableModel(host, defaultModel, None)
      ensures r.Ok? ==> tried != [] && r.value.1.model == tried[0] && r.value.1.tokensUsed == |r.value.0| / 4
      ensures (r, tried) == RetryOutcome(host, defaultModel, msgs, maxTokens, wire)
    {
      var selected := BestAvailableModel(host, defaultModel, None);
      if selected !in Configs {
        return Err("KeyError: " + selected), [];
      }
      var config := Configs[selected];
      TrackUsage(selected);
      OccurrencesCons(selected, []);
      assert [selected] + [] == [selected];
      var reply := Dispatch(host, config, msgs, maxTokens, wire, 1);
      if reply.Text? {
        return Ok(Answer(selected, reply.text)), [selected];
      }
      return Err("All AI models failed. Last error: " + reply.error), [selected];
    }
  }

  /**
   * Counters and their insertion order: each model listed once, exactly the
   * models with a counter, every counter at least one.
   */
  ghost predicate UsageValid(usage: map<string, nat>, order: seq<string>)
  {
    (forall i, j :: 0 <= i < j < |order| ==> order[i] != order[j]) &&
    (forall m :: m in usage <==> m in order) &&
    (forall m :: m in usage ==> usage[m] >= 1)
  }

  /** One more call for `m` keeps the counters well formed. */
  lemma TrackedValid(usage: map<string, nat>, order: seq<string>, m: string,
                     usage': map<string, nat>, order': seq<string>)
    requires UsageValid(usage, order)
    requires order' == if m in usage then order else order + [m]
    requires usage' == usage[m := (if m in usage then usage[m] else 0) + 1]
    ensures UsageValid(usage', order')
  {
    if m !in usage {
      assert forall i :: 0 <= i < |order| ==> order'[i] == order[i];
      assert order'[|order|] == m;
      forall k ensures k in usage' <==> k in order' {
        assert k in order' <==> k in order || k == m;
      }
    }
  }

  /** A first call for `m` appends it to the order with a counter of one, adding one to the sum. */
  lemma SumCountsNew(order: seq<string>, usage: map<string, nat>, m: string)
    requires forall i :: 0 <= i < |order| ==> order[i] in usage && order[i] != m
    requires forall i, j :: 0 <= i < j < |order| ==> order[i] != order[j]
    ensures SumCounts(order + [m], usage[m := 1]) == SumCounts(order, usage) + 1
  {
    var order' := order + [m];
    var mid := usage[m := 0];
    assert forall i :: 0 <= i < |order| ==> order'[i] == order[i];
    assert order'[|order|] == m;
    SumCountsAppend(order, usage, m);
    SumCountsBump(order', mid, m);
    assert mid[m := mid[m] + 1] == usage[m := 1];
  }

  /** The sum over the insertion order grows by the new model's counter. */
  lemma {:induction false} SumCountsAppend(order: seq<string>, usage: map<string, nat>, m: string)
    requires forall i :: 0 <= i < |order| ==> order[i] in usage && order[i] != m
    ensures SumCounts(order + [m], usage[m := 0]) == SumCounts(order, usage)
  {
    if order != [] {
      assert (order + [m])[1..] == order[1..] + [m];
      SumCountsAppend(order[1..], usage, m);
    } else {
      assert SumCounts([m], usage[m := 0]) == 0 + SumCounts([], usage[m := 0]);
    }
  }

  /** Counters outside the order do not enter the sum. */
  lemma {:induction false} SumCountsFrame(order: seq<string>, u: map<string, nat>, v: map<string, nat>)
    requires forall i :: 0 <= i < |order| ==> order[i] in u && order[i] in v && u[order[i]] == v[order[i]]
    ensures SumCounts(order, u) == SumCounts(order, v)
  {
    if order != [] {
      SumCountsFrame(order[1..], u, v);
    }
  }

  /** Bumping one counter that appears once in the order adds one to the sum. */
  lemma {:induction false} SumCountsBump(order: seq<string>, usage: map<string, nat>, m: string)
    requires forall i :: 0 <= i < |order| ==> order[i] in usage
    requires forall i, j :: 0 <= i < j < |order| ==> order[i] != order[j]
    requires m in order
    ensures m in usage
    ensures SumCounts(order, usage[m := usage[m] + 1]) == SumCounts(order, usage) + 1
  {
    var u' := usage[m := usage[m] + 1];
    if order[0] == m {
      SumCountsFrame(order[1..], usage, u');
    } else {
      SumCountsBump(order[1..], usage, m);
    }
  }

  /**
   * `query_ai_with_fallback`: the operation type picks the token budget, an
   * unset preference falls back to `AI_MODEL_PREFERENCE`, and a failure is
   * re-raised as "All AI providers failed".
   */
  method QueryAiWithFallback(manager: AIModelManager, host: Host, msgs: seq<Message>, operationType: string,
                             preferred: Option<string>, wire: Wire)
    returns (r: Result<(string, Metadata)>, tried: seq<string>)
    requires manager.Valid()
    modifies manager
    ensures manager.Valid()
    ensures |tried| <= 2
    ensures manager.TotalCalls() == old(manager.TotalCalls()) + |tried|
    ensures tried != [] ==>
              tried[0] == BestAvailableModel(host, manager.defaultModel,
                                             if Given(preferred) then preferred
                                             else if "AI_MODEL_PREFERENCE" in host.env then Some(host.env["AI_MODEL_PREFERENCE"])
                                             else None)
    ensures r.Err? ==> StartsWith(r.msg, "All AI providers failed: ")
    ensures var o := QueryOutcome(host, manager.defaultModel, Preference(host, preferred), msgs,
                                  Some(TokenBudget(operationType)), wire);
            tried == o.1 && (o.0.Ok? ==> r == o.0) && (o.0.Err? ==> r == Err("All AI providers failed: " + o.0.msg))
  {
    var budget := TokenBudget(operationType);
    var choice := Preference(host, preferred);
    var res;
    res, tried := manager.QueryModel(host, msgs, choice, Some(budget), wire);
    if res.Err? {
      r := Err("All AI providers failed: " + res.msg);
      assert r.msg[..|"All AI providers failed: "|] == "All AI providers failed: ";
    } else {
      r := res;
    }
  }
}
