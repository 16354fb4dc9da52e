/** Provider initialisation and the fallback AI instance: Groq is primary,
    Gemini is the fallback, each loaded only when its API key is set and its
    plugin package loads. */
module Genkit {
  import opened Wrappers

  datatype Provider = Groq | Gemini

  /** A loaded provider plugin, configured with its API key. */
  datatype Plugin = Plugin(provider: Provider, apiKey: string)

  /** The warnings printed instead of failing. */
  datatype Warning = KeyNotSet(provider: Provider) | PluginLoadFailed(provider: Provider)

  /** The environment variables read at start-up. */
  datatype Env = Env(groqApiKey: Option<string>, geminiApiKey: Option<string>, genkitModel: Option<string>)

  /** Whether `require` of each plugin package and the plugin factory succeed;
      that is code outside the model. */
  datatype Loader = Loader(groqLoads: bool, geminiLoads: bool)

  /** `groqAi` and `geminiAi` after start-up, with the warnings issued. */
  datatype Registry = Registry(groqAi: Option<Plugin>, geminiAi: Option<Plugin>, warnings: seq<Warning>)

  /** An environment variable is set when it is present and not empty (an
      empty string is falsy). */
  predicate KeySet(key: Option<string>) {
    key.Some? && key.value != ""
  }

  /** One provider's load step: a missing key disables it with a warning, a
      failing plugin load is caught and only warned about. */
  function LoadPlugin(p: Provider, key: Option<string>, loads: bool): (r: (Option<Plugin>, Option<Warning>))
    ensures r.0.Some? <==> KeySet(key) && loads
    ensures r.0.Some? ==> r.0.value == Plugin(p, key.value)
    ensures r.1.Some? <==> r.0.None?
    ensures !KeySet(key) ==> r.1 == Some(KeyNotSet(p))
    ensures KeySet(key) && !loads ==> r.1 == Some(PluginLoadFailed(p))
  {
    if KeySet(key) then
      if loads then (Some(Plugin(p, key.value)), None) else (None, Some(PluginLoadFailed(p)))
    else (None, Some(KeyNotSet(p)))
  }

  function WarningList(w: Option<Warning>): seq<Warning> {
    if w.Some? then [w.value] else []
  }

  /** Module start-up: Groq first, then Gemini. Neither step can abort the other. */
  function InitRegistry(env: Env, loader: Loader): (r: Registry)
    ensures r.groqAi.Some? <==> KeySet(env.groqApiKey) && loader.groqLoads
    ensures r.geminiAi.Some? <==> KeySet(env.geminiApiKey) && loader.geminiLoads
    ensures r.groqAi.Some? ==> r.groqAi.value == Plugin(Groq, env.groqApiKey.value)
    ensures r.geminiAi.Some? ==> r.geminiAi.value == Plugin(Gemini, env.geminiApiKey.value)
    ensures |r.warnings| == (if r.groqAi.None? then 1 else 0) + (if r.geminiAi.None? then 1 else 0)
  {
    var (g, gw) := LoadPlugin(Groq, env.groqApiKey, loader.groqLoads);
    var (m, mw) := LoadPlugin(Gemini, env.geminiApiKey, loader.geminiLoads);
    Registry(g, m, WarningList(gw) + WarningList(mw))
  }

  /** Whatever happens to Groq (key missing, load failure), Gemini's outcome
      is the same. */
  lemma GeminiIndependentOfGroq(env1: Env, env2: Env, l1: Loader, l2: Loader)
    requires env1.geminiApiKey == env2.geminiApiKey && l1.geminiLoads == l2.geminiLoads
    ensures InitRegistry(env1, l1).geminiAi == InitRegistry(env2, l2).geminiAi
  {
  }

  datatype AiInstance = AiInstance(plugins: seq<Plugin>, model: string)

  const GroqModel: string := "groq/llama-3.1-8b-instant"
  const GeminiModel: string := "googleai/gemini-1.5-flash"
  const NoProvidersMessage: string :=
    "No AI providers available. Please set GROQ_API_KEY or GEMINI_API_KEY environment variables."

  /** The plugin list: the loaded providers, Groq before Gemini. */
  function Plugins(reg: Registry): (r: seq<Plugin>)
    ensures |r| == (if reg.groqAi.Some? then 1 else 0) + (if reg.geminiAi.Some? then 1 else 0)
    ensures |r| <= 2
    ensures reg.groqAi.Some? ==> r[0] == reg.groqAi.value
    ensures reg.geminiAi.Some? ==> r[|r| - 1] == reg.geminiAi.value
    ensures forall p :: p in r ==> Some(p) == reg.groqAi || Some(p) == reg.geminiAi
  {
    (if reg.groqAi.Some? then [reg.groqAi.value] else [])
    + (if reg.geminiAi.Some? then [reg.geminiAi.value] else [])
  }

  /** `createFallbackAi()`: fails when no provider loaded, otherwise builds an
      instance whose default model is Groq's whenever Groq is loaded. */
  function CreateFallbackAi(reg: Registry): (r: Result<AiInstance>)
    ensures r.Error? <==> reg.groqAi.None? && reg.geminiAi.None?
    ensures r.Error? ==> r.message == NoProvidersMessage
    ensures r.Ok? ==> 1 <= |r.value.plugins| <= 2 && r.value.plugins == Plugins(reg)
    ensures r.Ok? ==> (r.value.model == GroqModel <==> reg.groqAi.Some?)
    ensures r.Ok? ==> (r.value.model == GeminiModel <==> reg.groqAi.None?)
  {
    var plugins := Plugins(reg);
    if |plugins| == 0 then Error(NoProvidersMessage)
    else Ok(AiInstance(plugins, if reg.groqAi.Some? then GroqModel else GeminiModel))
  }

  /** The `ai` the flow modules test with `ai ? ... : null`: no instance when
      no provider is available, instead of an exception. */
  function AiOrNull(reg: Registry): (r: Option<AiInstance>)
    ensures r.None? <==> reg.groqAi.None? && reg.geminiAi.None?
    ensures r.Some? ==> CreateFallbackAi(reg) == Ok(r.value)
  {
    match CreateFallbackAi(reg)
    case Ok(ai) => Some(ai)
    case Error(_) => None
  }

  /** With neither key set, importing the module throws: `ai` is never null, so
      no flow module gets as far as its mock branch. */
  lemma NoKeysImportThrows(env: Env, loader: Loader)
    requires !KeySet(env.groqApiKey) && !KeySet(env.geminiApiKey)
    ensures CreateFallbackAi(InitRegistry(env, loader)) == Error(NoProvidersMessage)
    ensures AiOrNull(InitRegistry(env, loader)).None?
  {
  }
}
