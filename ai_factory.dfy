/** createAIProvider: the choice of text-generation provider made from the
    process environment. The environment is read-only input; the result is
    either no provider or a provider kind with its API key and model name. */
module AiFactory {
  import opened JsString

  datatype Option<T> = None | Some(value: T)

  /** The environment variables createAIProvider reads; None is an unset
      variable. */
  datatype Env = Env(
    aiProvider: Option<string>,    // AI_PROVIDER
    geminiApiKey: Option<string>,  // GEMINI_API_KEY
    openaiApiKey: Option<string>,  // OPENAI_API_KEY
    openaiModel: Option<string>,   // OPENAI_MODEL
    geminiModel: Option<string>)   // GEMINI_MODEL

  /** The three AIProvider implementations of the repository. */
  datatype ProviderKind = OpenAI | Gemini | NoneProvider

  /** A constructed provider: its class, the key and the model it was given. */
  datatype Provider = Provider(kind: ProviderKind, apiKey: string, model: string)

  const DefaultOpenAIModel := "gpt-4o-mini"
  const DefaultGeminiModel := "gemini-2.0-flash-exp"

  /** JavaScript truthiness of an environment value: set and not empty. */
  predicate IsSet(v: Option<string>) {
    v.Some? && v.value != ""
  }

  /** The expression `v || fallback` on an environment value. */
  function OrElse(v: Option<string>, fallback: string): string {
    if IsSet(v) then v.value else fallback
  }

  /** `(AI_PROVIDER || 'auto').toLowerCase()` */
  function ProviderType(env: Env): string {
    ToLowerCase(OrElse(env.aiProvider, "auto"))
  }

  function OpenAIFrom(env: Env): Provider
    requires IsSet(env.openaiApiKey)
  {
    Provider(OpenAI, env.openaiApiKey.value, OrElse(env.openaiModel, DefaultOpenAIModel))
  }

  function GeminiFrom(env: Env): Provider
    requires IsSet(env.geminiApiKey)
  {
    Provider(Gemini, env.geminiApiKey.value, OrElse(env.geminiModel, DefaultGeminiModel))
  }

  /** createAIProvider. Whatever it returns is a real provider (never the
      NoneProvider class), built with the key read from that provider's own
      variable and with a non-empty model name. */
  function CreateAIProvider(env: Env): (r: Option<Provider>)
    ensures r.Some? ==> r.value.kind != NoneProvider && r.value.model != ""
    ensures r.Some? && r.value.kind == OpenAI ==>
      IsSet(env.openaiApiKey) && r.value.apiKey == env.openaiApiKey.value
    ensures r.Some? && r.value.kind == Gemini ==>
      IsSet(env.geminiApiKey) && r.value.apiKey == env.geminiApiKey.value
  {
    var providerType := ProviderType(env);
    if providerType == "none" then None
    else if providerType == "openai" then
      if !IsSet(env.openaiApiKey) then None else Some(OpenAIFrom(env))
    else if providerType == "gemini" then
      if !IsSet(env.geminiApiKey) then None else Some(GeminiFrom(env))
    else if providerType == "auto" && IsSet(env.openaiApiKey) then Some(OpenAIFrom(env))
    else if providerType == "auto" && IsSet(env.geminiApiKey) then Some(GeminiFrom(env))
    else None
  }

  // ---------------------------------------------------------------------
  // An independent statement of the same decision: each setting names the
  // providers it may use, in order of preference, and the first one whose
  // key is set is chosen.

  function Preference(providerType: string): seq<ProviderKind> {
    if providerType == "openai" then [OpenAI]
    else if providerType == "gemini" then [Gemini]
    else if providerType == "auto" then [OpenAI, Gemini]
    else []
  }

  predicate HasKey(env: Env, kind: ProviderKind) {
    match kind
    case OpenAI => IsSet(env.openaiApiKey)
    case Gemini => IsSet(env.geminiApiKey)
    case NoneProvider => false
  }

  function FirstConfigured(env: Env, kinds: seq<ProviderKind>): Option<Provider> {
    if kinds == [] then None
    else if HasKey(env, kinds[0]) then
      Some(if kinds[0] == OpenAI then OpenAIFrom(env) else GeminiFrom(env))
    else FirstConfigured(env, kinds[1..])
  }

  /** createAIProvider is first-match over the preference list of its
      setting. */
  lemma CreateAIProviderIsFirstConfigured(env: Env)
    ensures CreateAIProvider(env) == FirstConfigured(env, Preference(ProviderType(env)))
  {
    var kinds := Preference(ProviderType(env));
    if ProviderType(env) == "auto" {
      assert kinds == [OpenAI, Gemini] && kinds[1..] == [Gemini] && kinds[1..][1..] == [];
      if !IsSet(env.openaiApiKey) {
        assert FirstConfigured(env, kinds) == FirstConfigured(env, [Gemini]);
        assert [Gemini][1..] == [];
        assert "auto" != "none" && "auto" != "openai" && "auto" != "gemini";
        if IsSet(env.geminiApiKey) {
          assert FirstConfigured(env, [Gemini]) == Some(GeminiFrom(env));
          assert CreateAIProvider(env) == Some(GeminiFrom(env));
        } else {
          assert FirstConfigured(env, [Gemini]) == None;
          assert CreateAIProvider(env) == None;
        }
      }
    } else if kinds != [] {
      assert kinds[1..] == [];
    }
  }

  // ---------------------------------------------------------------------
  // The decision table, row by row.

  /** An unset or empty AI_PROVIDER behaves as 'auto'. */
  lemma ProviderTypeDefaultsToAuto(env: Env)
    requires !IsSet(env.aiProvider)
    ensures ProviderType(env) == "auto"
    ensures CreateAIProvider(env) == CreateAIProvider(env.(aiProvider := Some("auto")))
  {
    assert ToLowerCase("auto") == "auto";
  }

  /** AI_PROVIDER is matched case-insensitively: two settings that differ
      only in the case of their letters choose the same provider. */
  lemma ProviderTypeIgnoresCase(env: Env, p: string, q: string)
    requires EqualUpToAsciiCase(p, q)
    ensures CreateAIProvider(env.(aiProvider := Some(p))) == CreateAIProvider(env.(aiProvider := Some(q)))
  {
    ToLowerCaseEqualIff(p, q);
  }

  /** For instance 'Gemini' and 'GEMINI' choose what 'gemini' chooses. */
  lemma MixedCaseGeminiSetting(env: Env)
    requires env.aiProvider == Some("Gemini") || env.aiProvider == Some("GEMINI")
    ensures ProviderType(env) == "gemini"
    ensures CreateAIProvider(env) == CreateAIProvider(env.(aiProvider := Some("gemini")))
  {
    assert ToLowerCase("Gemini") == "gemini";
    assert ToLowerCase("GEMINI") == "gemini";
    assert ToLowerCase("gemini") == "gemini";
  }

  /** 'none' disables AI whatever keys are set. */
  lemma NoneSettingDisablesAI(env: Env)
    requires ProviderType(env) == "none"
    ensures CreateAIProvider(env) == None
  {
  }

  /** 'openai' gives an OpenAI provider exactly when its key is set, with
      OPENAI_MODEL or 'gpt-4o-mini'; it never falls back to Gemini. */
  lemma OpenAISettingNeverFallsBack(env: Env)
    requires ProviderType(env) == "openai"
    ensures CreateAIProvider(env).Some? <==> IsSet(env.openaiApiKey)
    ensures CreateAIProvider(env).Some? ==>
      CreateAIProvider(env).value == Provider(OpenAI, env.openaiApiKey.value, OrElse(env.openaiModel, "gpt-4o-mini"))
  {
  }

  /** 'gemini' gives a Gemini provider exactly when its key is set, with
      GEMINI_MODEL or 'gemini-2.0-flash-exp'; it never falls back to OpenAI. */
  lemma GeminiSettingNeverFallsBack(env: Env)
    requires ProviderType(env) == "gemini"
    ensures CreateAIProvider(env).Some? <==> IsSet(env.geminiApiKey)
    ensures CreateAIProvider(env).Some? ==>
      CreateAIProvider(env).value == Provider(Gemini, env.geminiApiKey.value, OrElse(env.geminiModel, "gemini-2.0-flash-exp"))
  {
  }

  /** 'auto' prefers OpenAI whenever its key is set, takes Gemini only when
      the OpenAI key is missing, and gives nothing when both are missing. */
  lemma AutoSettingPrefersOpenAI(env: Env)
    requires ProviderType(env) == "auto"
    ensures IsSet(env.openaiApiKey) ==> CreateAIProvider(env) == Some(OpenAIFrom(env))
    ensures !IsSet(env.openaiApiKey) && IsSet(env.geminiApiKey) ==> CreateAIProvider(env) == Some(GeminiFrom(env))
    ensures !IsSet(env.openaiApiKey) && !IsSet(env.geminiApiKey) ==> CreateAIProvider(env) == None
  {
  }

  /** Any other setting gives no provider. */
  lemma UnrecognisedSettingDisablesAI(env: Env)
    requires ProviderType(env) !in ["none", "openai", "gemini", "auto"]
    ensures CreateAIProvider(env) == None
  {
  }

  /** A provider is returned exactly when the setting names one whose key is
      set. */
  lemma ProviderChosenIff(env: Env)
    ensures CreateAIProvider(env).Some? <==>
      || (ProviderType(env) == "openai" && IsSet(env.openaiApiKey))
      || (ProviderType(env) == "gemini" && IsSet(env.geminiApiKey))
      || (ProviderType(env) == "auto" && (IsSet(env.openaiApiKey) || IsSet(env.geminiApiKey)))
  {
  }
}
