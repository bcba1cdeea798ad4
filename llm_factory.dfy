/**
  The factory that turns a provider name and an optional model name into a
  chat-model configuration: provider names are normalised and checked,
  models default per provider or go through the alias table, and a logging
  callback is added to the caller's callback list when it has none.
*/
module LlmFactory {
  import opened Wrappers
  import opened Text
  import Settings

  const SupportedProviders: seq<string> := ["openai", "anthropic", "ollama"]

  const DefaultModels: map<string, string> := map[
    "openai" := "gpt-4",
    "anthropic" := "claude-3-opus-20240229",
    "ollama" := "llama2"
  ]

  const ModelAliases: map<string, string> := map[
    "gpt4" := "gpt-4",
    "gpt-4-turbo" := "gpt-4-turbo-preview",
    "gpt3.5" := "gpt-3.5-turbo",
    "claude" := "claude-3-opus-20240229",
    "claude-opus" := "claude-3-opus-20240229",
    "claude-sonnet" := "claude-3-sonnet-20240229",
    "claude-haiku" := "claude-3-haiku-20240307"
  ]

  datatype ProviderKind = OpenAIProvider | AnthropicProvider | OllamaProvider

  /** Which supported provider a normalised name is, if any. */
  function KindOf(p: string): (k: Option<ProviderKind>)
    ensures k.Some? <==> p in SupportedProviders
    ensures k.Some? ==> p in DefaultModels
  {
    if p == "openai" then Some(OpenAIProvider)
    else if p == "anthropic" then Some(AnthropicProvider)
    else if p == "ollama" then Some(OllamaProvider)
    else None
  }

  /** A callback handler: the factory's logging handler, or any other one. */
  datatype Callback = LoggingHandler | OtherHandler(name: string)

  /** A caller-owned Python list of callbacks, which the factory may append to. */
  class CallbackList {
    var items: seq<Callback>

    constructor (items: seq<Callback>)
      ensures this.items == items
    {
      this.items := items;
    }
  }

  /** The chat model built for each provider (temperature and extra arguments omitted). */
  datatype ChatModel =
    | ChatOpenAI(modelName: string, maxTokens: Option<int>, apiKey: Option<string>,
                 requestTimeout: int, streaming: bool, callbacks: CallbackList)
    | ChatAnthropic(model: string, maxTokens: Option<int>, apiKey: Option<string>,
                    timeout: int, streaming: bool, callbacks: CallbackList)
    | ChatOllama(model: string, callbacks: CallbackList)

  /** `provider.lower().strip()`. */
  function NormalizeProvider(provider: string): string {
    Strip(Lower(provider))
  }

  /** `MODEL_ALIASES.get(model, model)`. */
  function ResolveAlias(model: string): string {
    if model in ModelAliases then ModelAliases[model] else model
  }

  /** The model `create_llm` uses for a supported provider. */
  function ResolveModel(provider: string, model: Option<string>): string
    requires provider in DefaultModels
  {
    if model.None? then DefaultModels[provider] else ResolveAlias(model.value)
  }

  /** Every supported provider has a default model, and no other name has one. */
  lemma DefaultModelsCoverProviders()
    ensures forall p :: p in DefaultModels <==> p in SupportedProviders
  {
    assert DefaultModels.Keys == {"openai", "anthropic", "ollama"};
  }

  /** No alias target is itself an alias, so resolving twice is resolving once. */
  lemma ResolveAliasIdempotent(model: string)
    ensures ResolveAlias(ResolveAlias(model)) == ResolveAlias(model)
  {
    AliasTargetsAreNotAliases();
  }

  lemma AliasTargetsAreNotAliases()
    ensures forall k :: k in ModelAliases ==> ModelAliases[k] !in ModelAliases
  {
    assert ModelAliases.Keys == {"gpt4", "gpt-4-turbo", "gpt3.5", "claude", "claude-opus", "claude-sonnet", "claude-haiku"};
    assert ModelAliases.Values == {"gpt-4", "gpt-4-turbo-preview", "gpt-3.5-turbo", "claude-3-opus-20240229",
                                   "claude-3-sonnet-20240229", "claude-3-haiku-20240307"};
  }

  /** A resolved model is never an alias name, whether defaulted or given. */
  lemma ResolvedModelIsNotAlias(provider: string, model: Option<string>)
    requires provider in DefaultModels
    ensures ResolveModel(provider, model) !in ModelAliases
  {
    AliasTargetsAreNotAliases();
  }

  predicate HasLoggingHandler(callbacks: seq<Callback>) {
    exists k :: 0 <= k < |callbacks| && callbacks[k] == LoggingHandler
  }

  /** The caller's list after `create_llm`: one logging handler added unless one is there. */
  function WithLoggingHandler(callbacks: seq<Callback>): (r: seq<Callback>)
    ensures HasLoggingHandler(r)
    ensures HasLoggingHandler(callbacks) ==> r == callbacks
    ensures !HasLoggingHandler(callbacks) ==> |r| == |callbacks| + 1
  {
    if HasLoggingHandler(callbacks) then callbacks
    else
      var r := callbacks + [LoggingHandler];
      assert r[|callbacks|] == LoggingHandler;
      r
  }

  /** Adding the logging handler twice adds it once. */
  lemma WithLoggingHandlerIdempotent(callbacks: seq<Callback>)
    ensures WithLoggingHandler(WithLoggingHandler(callbacks)) == WithLoggingHandler(callbacks)
  {
  }

  /** `', '.join(SUPPORTED_PROVIDERS)`. */
  const SupportedProvidersText := "openai, anthropic, ollama"

  lemma SupportedProvidersTextIsJoin()
    ensures Join(SupportedProviders, ", ") == SupportedProvidersText
  {
  }

  function UnsupportedProviderMessage(provider: string): string {
    "Unsupported provider '" + provider + "'. Supported providers: " + SupportedProvidersText
  }

  /** `if api_key:` and `if max_tokens:`: empty and zero values are left out; a negative limit is truthy and kept. */
  function IfTruthy(s: Option<string>): Option<string> {
    if s.Some? && s.value != "" then s else None
  }

  function IfNonZero(n: Option<int>): Option<int> {
    if n.Some? && n.value != 0 then n else None
  }

  function CallbacksOf(m: ChatModel): CallbackList {
    m.callbacks
  }

  function ModelOf(m: ChatModel): string {
    match m
    case ChatOpenAI(name, _, _, _, _, _) => name
    case ChatAnthropic(name, _, _, _, _, _) => name
    case ChatOllama(name, _) => name
  }

  /**
    The chat model `create_llm` builds for a supported provider: the
    provider's own class around the resolved model and the callback list;
    only the hosted providers take the token limit and key, and only when
    they are truthy.
  */
  function Build(kind: ProviderKind, model: string, maxTokens: Option<int>, apiKey: Option<string>,
                 timeout: int, streaming: bool, callbacks: CallbackList): (m: ChatModel)
    ensures ModelOf(m) == model && CallbacksOf(m) == callbacks
    ensures m.ChatOpenAI? <==> kind == OpenAIProvider
    ensures m.ChatAnthropic? <==> kind == AnthropicProvider
    ensures m.ChatOllama? <==> kind == OllamaProvider
    ensures !m.ChatOllama? ==> m.maxTokens == IfNonZero(maxTokens) && m.apiKey == IfTruthy(apiKey)
  {
    match kind
    case OpenAIProvider =>
      ChatOpenAI(model, IfNonZero(maxTokens), IfTruthy(apiKey), timeout, streaming, callbacks)
    case AnthropicProvider =>
      ChatAnthropic(model, IfNonZero(maxTokens), IfTruthy(apiKey), timeout, streaming, callbacks)
    case OllamaProvider =>
      ChatOllama(model, callbacks)
  }

  /**
    Provider validation and model resolution of `create_llm`: the provider
    is normalised and must be supported; the model is the provider's default
    when absent and otherwise goes through the alias table.
  */
  function Resolve(provider: string, model: Option<string>): (r: Result<(ProviderKind, string), string>)
    ensures r.Err? <==> NormalizeProvider(provider) !in SupportedProviders
    ensures r.Err? ==> r.error == UnsupportedProviderMessage(NormalizeProvider(provider))
    ensures r.Ok? ==>
      && KindOf(NormalizeProvider(provider)) == Some(r.value.0)
      && r.value.1 == ResolveModel(NormalizeProvider(provider), model)
  {
    var p := NormalizeProvider(provider);
    match KindOf(p)
    case None => Err(UnsupportedProviderMessage(p))
    case Some(kind) => Ok((kind, if model.None? then DefaultModels[p] else ResolveAlias(model.value)))
  }

  /**
    What the provider's chat-model class does with the provider, model,
    token limit and key it is given: `None` when it builds, or the text of
    the error it raises (a missing key, a rejected argument). The classes
    live outside this code, so this is a parameter.
  */
  type Constructor = (ProviderKind, string, Option<int>, Option<string>) -> Option<string>

  /**
    `create_llm`: an unsupported provider fails before anything is touched;
    otherwise the caller's callback list (or a new one) gets a logging
    handler unless it has one, and then the provider's chat model is built
    around that very list, or its class's error is raised again.
  */
  method CreateLlm(provider: string, model: Option<string>, maxTokens: Option<int>, apiKey: Option<string>,
                   timeout: int, streaming: bool, callbacks: CallbackList?, construct: Constructor)
    returns (r: Result<ChatModel, string>)
    modifies callbacks
    ensures Resolve(provider, model).Err? ==>
      r == Err(Resolve(provider, model).error) && (callbacks != null ==> callbacks.items == old(callbacks.items))
    ensures Resolve(provider, model).Ok? ==>
      var (kind, resolved) := Resolve(provider, model).value;
      var failure := construct(kind, resolved, IfNonZero(maxTokens), IfTruthy(apiKey));
      && (callbacks != null ==> callbacks.items == WithLoggingHandler(old(callbacks.items)))
      && (failure.Some? ==> r == Err(failure.value))
      && (failure.None? ==>
            && r.Ok?
            && r.value == Build(kind, resolved, maxTokens, apiKey, timeout, streaming, CallbacksOf(r.value))
            && (callbacks != null ==> CallbacksOf(r.value) == callbacks)
            && (callbacks == null ==>
                  fresh(CallbacksOf(r.value)) && CallbacksOf(r.value).items == [LoggingHandler]))
  {
    var resolution := Resolve(provider, model);
    if resolution.Err? {
      return Err(resolution.error);
    }
    var (kind, resolved) := resolution.value;
    var list := callbacks;
    if list == null {
      list := new CallbackList([]);
    }
    AddLoggingHandler(list);
    var failure := construct(kind, resolved, IfNonZero(maxTokens), IfTruthy(apiKey));
    if failure.Some? {
      return Err(failure.value);
    }
    r := Ok(Build(kind, resolved, maxTokens, apiKey, timeout, streaming, list));
  }

  /** `if not any(isinstance(cb, LLMCallbackHandler) ...): callbacks.append(...)`. */
  method AddLoggingHandler(list: CallbackList)
    modifies list
    ensures list.items == WithLoggingHandler(old(list.items))
  {
    if !HasLoggingHandler(list.items) {
      list.items := list.items + [LoggingHandler];
    }
  }

  /** `get_default_model`: lower-cases (without stripping) and looks the provider up. */
  function GetDefaultModel(provider: string): Result<string, string> {
    var p := Lower(provider);
    if p !in SupportedProviders then Err("Unsupported provider: " + p)
    else Ok(DefaultModels[p])
  }

  /** The default model agrees with what `create_llm` uses when no model is given. */
  lemma GetDefaultModelAgrees(provider: string)
    requires GetDefaultModel(provider).Ok?
    ensures Lower(provider) in SupportedProviders
    ensures GetDefaultModel(provider).value == ResolveModel(Lower(provider), None)
  {
    DefaultModelsCoverProviders();
  }

  lemma {:induction false} LowerOfLowerCase(s: string)
    requires forall k :: 0 <= k < |s| ==> !('A' <= s[k] <= 'Z')
    ensures Lower(s) == s
  {
    if |s| > 0 {
      LowerOfLowerCase(s[1..]);
    }
  }

  lemma SupportedProviderIsLowerCase(p: string)
    requires p in SupportedProviders
    ensures Lower(p) == p
  {
    assert forall k :: 0 <= k < |p| ==> !('A' <= p[k] <= 'Z');
    LowerOfLowerCase(p);
  }

  lemma SupportedProviderIsTrimmed(p: string)
    requires p in SupportedProviders
    ensures |p| > 0 && !IsSpace(p[0]) && !IsSpace(p[|p| - 1])
  {
  }

  lemma PaddedNameIsNotSupported(p: string)
    requires p in SupportedProviders
    ensures " " + p !in SupportedProviders
  {
  }

  lemma LowerCons(c: char, s: string)
    ensures Lower([c] + s) == [LowerChar(c)] + Lower(s)
  {
    assert ([c] + s)[1..] == s;
  }

  /**
    Surrounding white space is accepted by `create_llm` but rejected by
    `get_default_model`, which does not strip.
  */
  lemma PaddedProviderName(p: string)
    requires p in SupportedProviders
    ensures NormalizeProvider(" " + p) == p
    ensures GetDefaultModel(" " + p).Err?
  {
    SupportedProviderIsLowerCase(p);
    SupportedProviderIsTrimmed(p);
    PaddedNameIsNotSupported(p);
    LowerCons(' ', p);
    var padded := " " + p;
    assert Lower(padded) == padded;
    assert padded[1..] == p;
    assert LStrip(padded) == p;
  }

  /** `get_supported_providers`: a new list with the providers; the class list is not shared. */
  method GetSupportedProviders() returns (r: array<string>)
    ensures fresh(r)
    ensures r[..] == SupportedProviders
  {
    r := new string[|SupportedProviders|](i requires 0 <= i < |SupportedProviders| => SupportedProviders[i]);
  }
  /** A supported provider name is already normalised. */
  lemma NormalizeSupported(p: string)
    requires p in SupportedProviders
    ensures NormalizeProvider(p) == p
  {
    SupportedProviderIsLowerCase(p);
    SupportedProviderIsTrimmed(p);
    assert LStrip(p) == p;
    assert RStrip(p) == p;
  }

  /** The provider a loaded settings object names. */
  function KindOfSetting(p: Settings.Provider): (k: ProviderKind)
    ensures k == OllamaProvider <==> p == Settings.Ollama
  {
    match p
    case OpenAI => OpenAIProvider
    case Anthropic => AnthropicProvider
    case Ollama => OllamaProvider
  }

  function ProviderName(p: Settings.Provider): (name: string)
    ensures name in SupportedProviders && KindOf(name) == Some(KindOfSetting(p))
  {
    match p
    case OpenAI => "openai"
    case Anthropic => "anthropic"
    case Ollama => "ollama"
  }

  /** What the chat-model class does with the provider, model, token limit and key of a settings object. */
  function SettingsConstruction(c: Settings.Config, construct: Constructor): Option<string>
    requires Settings.BoundsHold(c)
  {
    construct(KindOfSetting(c.aiModelProvider), ResolveAlias(c.aiModelName),
              IfNonZero(Some(c.aiMaxTokens)), IfTruthy(Some(c.aiApiKey)))
  }

  /**
    `from_settings`: `create_llm` with the settings' provider, model, token
    limit, key and timeout. A loaded settings object always names a
    supported provider, so it fails only when the chat-model class raises.
  */
  method FromSettings(c: Settings.Config, callbacks: CallbackList?, construct: Constructor)
    returns (r: Result<ChatModel, string>)
    requires Settings.BoundsHold(c)
    modifies callbacks
    ensures callbacks != null ==> callbacks.items == WithLoggingHandler(old(callbacks.items))
    ensures r.Ok? <==> SettingsConstruction(c, construct).None?
    ensures r.Err? ==> r.error == SettingsConstruction(c, construct).value
    ensures r.Ok? ==>
      && r.value == Build(KindOfSetting(c.aiModelProvider), ResolveAlias(c.aiModelName),
                          Some(c.aiMaxTokens), Some(c.aiApiKey), c.aiTimeout, false, CallbacksOf(r.value))
      && (callbacks != null ==> CallbacksOf(r.value) == callbacks)
      && (callbacks == null ==> fresh(CallbacksOf(r.value)) && CallbacksOf(r.value).items == [LoggingHandler])
  {
    var name := ProviderName(c.aiModelProvider);
    NormalizeSupported(name);
    assert Resolve(name, Some(c.aiModelName)) == Ok((KindOfSetting(c.aiModelProvider), ResolveAlias(c.aiModelName)));
    r := CreateLlm(name, Some(c.aiModelName), Some(c.aiMaxTokens), Some(c.aiApiKey),
                   c.aiTimeout, false, callbacks, construct);
  }

  /**
    `create_default_llm`: the process-wide settings (built on first use)
    fed to `from_settings` with a new callback list; settings that do not
    load make it fail with the names of the failing fields, and a
    chat-model class that raises makes it fail with that error.
  */
  method CreateDefaultLlm(registry: Settings.SettingsRegistry, env: Settings.Environment, construct: Constructor)
    returns (r: Result<ChatModel, string>)
    requires registry.Consistent()
    modifies registry
    ensures old(registry.instance) == null && Settings.Load(env).Err? ==>
      r == Err(Join(Settings.Load(env).error, ", "))
    ensures old(registry.instance) != null ==>
      var c := old(registry.instance).config;
      Settings.BoundsHold(c)
      && (r.Ok? <==> SettingsConstruction(c, construct).None?)
      && (r.Err? ==> r.error == SettingsConstruction(c, construct).value)
      && (r.Ok? ==> ModelOf(r.value) == ResolveAlias(c.aiModelName))
    ensures old(registry.instance) == null && Settings.Load(env).Ok? ==>
      var c := Settings.Load(env).value;
      Settings.BoundsHold(c)
      && (r.Ok? <==> SettingsConstruction(c, construct).None?)
      && (r.Err? ==> r.error == SettingsConstruction(c, construct).value)
      && (r.Ok? ==> ModelOf(r.value) == ResolveAlias(c.aiModelName))
    ensures r.Ok? ==> fresh(CallbacksOf(r.value)) && CallbacksOf(r.value).items == [LoggingHandler]
  {
    var settings := registry.GetSettings(env);
    if settings.Err? {
      return Err(Join(settings.error, ", "));
    }
    r := FromSettings(settings.value.config, null, construct);
  }
}
