/** AI Engine settings: layered loading, the filtered save, and editing one engine. */
module EngineSettings {
  import opened Text
  import opened Json
  import opened Keyed
  import opened Numbers

  /** What the settings depend on besides the file: the environment, the text `str` gives a value that is not a
      string (never empty), and which strings `int` accepts. */
  datatype World = World(env: map<string, string>, show: Json -> string, parse: string -> Option<int>)

  datatype Tokens = Tokens(window: int, maxTokens: int, maxOutput: int)

  datatype Entry = Entry(
    supported: bool, model: string, thinking: string, speed: string, baseUrl: string, apiKeyEnv: string,
    tokens: Option<Tokens>)

  /** The engines of the catalog and the defaults the settings read. */
  const ENGINE_IDS: set<string> :=
    {"stub", "deepseek", "openai", "gemini", "kimi", "ollama", "lmstudio", "vllm", "codex", "claude-code", "cursor",
     "openhands", "opencode", "qoder"}

  const SUPPORTED: set<string> :=
    {"stub", "deepseek", "openai", "claude-code", "cursor", "openhands", "opencode"}

  function Catalog(id: string): Entry {
    if id == "deepseek" then
      Entry(true, "deepseek-v4-flash", "enabled", "", "https://api.deepseek.com", "DEEPSEEK_API_KEY",
            Some(Tokens(1000000, 384000, 384000)))
    else if id == "openai" then
      Entry(true, "gpt-5.5", "medium", "standard", "https://api.openai.com/v1", "OPENAI_API_KEY",
            Some(Tokens(1050000, 4096, 128000)))
    else if id == "gemini" then Entry(false, "gemini-3-flash", "", "", "", "GEMINI_API_KEY", None)
    else if id == "kimi" then Entry(false, "kimi-k2", "", "", "", "KIMI_API_KEY", None)
    else if id == "ollama" then Entry(false, "llama3.2", "", "", "http://localhost:11434/v1", "", None)
    else if id == "lmstudio" then Entry(false, "local-model", "", "", "http://localhost:1234/v1", "", None)
    else if id == "vllm" then Entry(false, "served-model", "", "", "http://localhost:8000/v1", "AITEAMOS_VLLM_API_KEY", None)
    else if id == "cursor" then Entry(true, "", "", "", "", "CURSOR_API_KEY", None)
    else if id == "openhands" then Entry(true, "", "", "", "", "OPENHANDS_API_TOKEN", None)
    else Entry(id in SUPPORTED, "", "", "", "", "", None)
  }

  function Show(w: World, j: Json): string { if j.JStr? then j.s else OrElse(w.show(j), "None") }

  // ---- normalisation ----

  function NormalizeThinking(value: string): string {
    var thinking := Lower(Strip(OrElse(value, "enabled")));
    if thinking in {"1", "true", "yes", "on", "enabled"} then "enabled" else "disabled"
  }

  const EFFORTS: map<string, string> :=
    map["0" := "none", "off" := "none", "disabled" := "none", "none" := "none", "fast" := "low", "quick" := "low",
        "low" := "low", "balanced" := "medium", "default" := "medium", "medium" := "medium", "hard" := "high",
        "high" := "high", "deep" := "xhigh", "x-high" := "xhigh", "xhigh" := "xhigh"]

  const SPEEDS: map<string, string> :=
    map["auto" := "standard", "default" := "standard", "normal" := "standard", "standard" := "standard",
        "fast" := "priority", "priority" := "priority", "slow" := "flex", "cheap" := "flex", "cost" := "flex",
        "flex" := "flex"]

  function Aliased(table: map<string, string>, s: string, default: string): string {
    if s in table then table[s] else default
  }

  function NormalizeEffort(value: string): string { Aliased(EFFORTS, Lower(Strip(OrElse(value, "medium"))), "medium") }

  function NormalizeSpeed(value: string): string { Aliased(SPEEDS, Lower(Strip(OrElse(value, "standard"))), "standard") }

  function NormalizeBool(j: Json, default: bool): bool {
    match j
    case JBool(b) => b
    case JNull => default
    case JStr(s) =>
      var v := Lower(Strip(s));
      if v in {"1", "true", "yes", "on"} then true
      else if v in {"0", "false", "no", "off"} then false
      else s != ""
    case _ => Truthy(j)
  }

  /** `int(value)`; "" and other rejected values give nothing. */
  function ParseInt(w: World, j: Json): Option<int> {
    match j
    case JInt(i) => Some(i)
    case JBool(b) => Some(if b then 1 else 0)
    case JReal(r) => Some(if r >= 0.0 then r.Floor else 0 - (0.0 - r).Floor)
    case JStr(s) => w.parse(s)
    case _ => None
  }

  function NormalizeInt(w: World, j: Json, default: int, low: int, high: int): int {
    var parsed := ParseInt(w, j);
    Clamp(if parsed.Some? then parsed.value else default, low, high)
  }

  function NormalizeEngine(value: string): string {
    var engine := Lower(Strip(OrElse(value, "deepseek")));
    if engine in {"fallback", "file_stub", "file-stub"} then "stub"
    else if engine in SUPPORTED then engine else "deepseek"
  }

  // ---- loading one engine ----

  function Fields(j: Json): Object { if j.JObj? then j.fields else map[] }

  function EngineFile(id: string, file: Object): Object { Fields(Get(Fields(Get(file, "engines")), id)) }

  function UpperChar(c: char): char { if 'a' <= c <= 'z' then c - 'a' + 'A' else if c == '-' then '_' else c }

  function EnvPrefix(id: string): string { if id == "" then "" else [UpperChar(id[0])] + EnvPrefix(id[1..]) }

  function EnvValue(w: World, id: string, suffix: string): Json {
    var name := "AITEAMOS_" + EnvPrefix(id) + suffix;
    if name in w.env then JStr(w.env[name]) else JNull
  }

  /** The first truthy layer: the engine's own entry, the legacy flat key, the environment, the default. */
  function Layered(engineFile: Object, file: Object, id: string, key: string, env: Json, default: Json): Json {
    Or(Get(engineFile, key), Or(Get(file, id + "_" + key), Or(env, default)))
  }

  /** A layered text setting, "" when no layer has one. */
  function TextSetting(w: World, engineFile: Object, file: Object, id: string, key: string, env: Json, default: string): string {
    var value := Layered(engineFile, file, id, key, env, JStr(default));
    if Truthy(value) then Show(w, value) else ""
  }

  function Thinking(id: string, raw: string): string {
    if id == "deepseek" then NormalizeThinking(raw) else if id == "openai" then NormalizeEffort(raw) else raw
  }

  function Speed(id: string, raw: string): string { if id == "openai" then NormalizeSpeed(raw) else raw }

  function ContextWindow(w: World, id: string, engineFile: Object, file: Object, t: Tokens): int {
    NormalizeInt(w, Layered(engineFile, file, id, "context_window", EnvValue(w, id, "_CONTEXT_WINDOW"), JInt(t.window)),
                 t.window, 1024, t.window)
  }

  function MaxTokens(w: World, id: string, engineFile: Object, file: Object, t: Tokens): int {
    var env := Or(EnvValue(w, id, "_MAX_OUTPUT_TOKENS"), EnvValue(w, id, "_MAX_TOKENS"));
    var asked := NormalizeInt(w, Layered(engineFile, file, id, "max_tokens", env, JInt(t.maxTokens)),
                              t.maxTokens, 64, t.maxOutput);
    var window := ContextWindow(w, id, engineFile, file, t);
    Min(asked, window)
  }

  /** The settings `engine_config` computes, from the engine's own entry and the whole file. */
  function Computed(w: World, id: string, engineFile: Object, file: Object): Object {
    var c := Catalog(id);
    map["model" := JStr(TextSetting(w, engineFile, file, id, "model", EnvValue(w, id, "_MODEL"), c.model)),
        "thinking" := JStr(Thinking(id, TextSetting(w, engineFile, file, id, "thinking", EnvValue(w, id, "_THINKING"), c.thinking))),
        "speed" := JStr(Speed(id, TextSetting(w, engineFile, file, id, "speed", EnvValue(w, id, "_SPEED"), c.speed))),
        "base_url" := JStr(TextSetting(w, engineFile, file, id, "base_url", EnvValue(w, id, "_BASE_URL"), c.baseUrl)),
        "api_key_env" := JStr(TextSetting(w, engineFile, file, id, "api_key_env", JNull, c.apiKeyEnv)),
        "enabled" := JBool(NormalizeBool(Get(engineFile, "enabled"), true))]
    + (if c.tokens.None? then map[] else
         map["context_window" := JInt(ContextWindow(w, id, engineFile, file, c.tokens.value)),
             "max_tokens" := JInt(MaxTokens(w, id, engineFile, file, c.tokens.value))])
  }

  function EngineConfig(w: World, id: string, file: Object): Object {
    var engineFile := EngineFile(id, file);
    engineFile + Computed(w, id, engineFile, file)
  }

  // ---- loading the file ----

  datatype Config = Config(
    activeEngine: string, deepseekModel: string, deepseekThinking: string, openaiModel: string, fallback: bool,
    engines: map<string, Object>)

  function ApiKeyConfigured(w: World, id: string, engine: Object): bool {
    var declared := Get(engine, "api_key_env");
    var name := OrElse(if Truthy(declared) then Show(w, declared) else "", Catalog(id).apiKeyEnv);
    name in w.env && name != "" && w.env[name] != ""
  }

  /** `bool(config.get("enabled", True))`. */
  function Enabled(engine: Object): bool { "enabled" !in engine || Truthy(engine["enabled"]) }

  function DefaultEngine(w: World, deepseek: Object, openai: Object): string {
    if Enabled(deepseek) && ApiKeyConfigured(w, "deepseek", deepseek) then "deepseek"
    else if Enabled(openai) && ApiKeyConfigured(w, "openai", openai) then "openai"
    else if Enabled(deepseek) then "deepseek"
    else if Enabled(openai) then "openai"
    else "deepseek"
  }

  function Configs(w: World, file: Object): map<string, Object> { map id | id in ENGINE_IDS :: EngineConfig(w, id, file) }

  function TextField(w: World, engine: Object, key: string, default: string): string {
    var value := Get(engine, key);
    if Truthy(value) then Show(w, value) else default
  }

  function ActiveEngine(w: World, file: Object): string {
    var fromEnv := if "AITEAMOS_AI_ENGINE" in w.env then JStr(w.env["AITEAMOS_AI_ENGINE"]) else JNull;
    var configured := Or(Get(file, "active_engine"), fromEnv);
    if Truthy(configured) && Strip(Show(w, configured)) != "" then NormalizeEngine(Show(w, configured))
    else DefaultEngine(w, EngineConfig(w, "deepseek", file), EngineConfig(w, "openai", file))
  }

  function Fallback(w: World, file: Object): bool {
    var flag := if "AITEAMOS_AI_ENGINE_FALLBACK_ON_ERROR" in w.env then w.env["AITEAMOS_AI_ENGINE_FALLBACK_ON_ERROR"] else "1";
    var fromEnv := Lower(flag) in {"1", "true", "yes", "on"};
    NormalizeBool(if "fallback_on_error" in file then file["fallback_on_error"] else JBool(fromEnv), true)
  }

  function Load(w: World, file: Object): Config {
    var deepseek := EngineConfig(w, "deepseek", file);
    Config(ActiveEngine(w, file),
           TextField(w, deepseek, "model", "deepseek-v4-flash"),
           NormalizeThinking(TextField(w, deepseek, "thinking", "enabled")),
           TextField(w, EngineConfig(w, "openai", file), "model", "gpt-5.5"),
           Fallback(w, file), Configs(w, file))
  }

  // ---- saving ----

  const PERSISTED_KEYS: seq<string> :=
    ["model", "thinking", "speed", "context_window", "max_tokens", "base_url", "api_key_env", "enabled", "command",
     "workspace", "profile"]

  predicate Worth(j: Json) { j != JNull && j != JStr("") }

  function Persisted(engine: Object): Object {
    map k | k in PERSISTED_KEYS && k in engine && Worth(engine[k]) :: engine[k]
  }

  function EngineOf(config: Config, id: string): Object { if id in config.engines then config.engines[id] else map[] }

  /** The engine's data with the top-level DeepSeek and OpenAI fields written over it. */
  function Merged(config: Config, id: string): Object {
    if id == "deepseek" then
      EngineOf(config, id) + map["model" := JStr(OrElse(config.deepseekModel, "deepseek-v4-flash")),
                                 "thinking" := JStr(NormalizeThinking(OrElse(config.deepseekThinking, "enabled")))]
    else if id == "openai" then
      EngineOf(config, id) + map["model" := JStr(OrElse(config.openaiModel, "gpt-5.5"))]
    else EngineOf(config, id)
  }

  function PersistedEngines(config: Config): Object {
    map id | id in SUPPORTED && Persisted(Merged(config, id)) != map[] :: JObj(Persisted(Merged(config, id)))
  }

  function Payload(config: Config, updatedAt: string): Object {
    map["active_engine" := JStr(NormalizeEngine(config.activeEngine)),
        "fallback_on_error" := JBool(config.fallback),
        "engines" := JObj(PersistedEngines(config)),
        "updated_at" := JStr(updatedAt)]
  }

  /** The inner loop of the save: the persisted dictionary of one engine, key by key. */
  method PersistedKeys(data: Object) returns (persisted: Object)
    ensures persisted == Persisted(data)
  {
    hide Worth;
    persisted := map[];
    for j := 0 to |PERSISTED_KEYS|
      invariant persisted == map k | k in PERSISTED_KEYS[..j] && k in data && Worth(data[k]) :: data[k]
    {
      var key := PERSISTED_KEYS[j];
      assert PERSISTED_KEYS[..j + 1] == PERSISTED_KEYS[..j] + [key];
      if key in data && Worth(data[key]) {
        persisted := persisted[key := data[key]];
      }
    }
    assert PERSISTED_KEYS[..|PERSISTED_KEYS|] == PERSISTED_KEYS;
  }

  /** The save as the service runs it: one dictionary per supported engine of the catalog. */
  method FilePayload(config: Config, catalog: seq<string>, updatedAt: string) returns (file: Object)
    requires forall id :: id in SUPPORTED ==> id in catalog
    ensures file == Payload(config, updatedAt)
  {
    hide Catalog, NormalizeThinking, NormalizeEngine, Persisted, Merged;
    var engines: Object := map[];
    for i := 0 to |catalog|
      invariant engines == map id | id in catalog[..i] && id in SUPPORTED && Persisted(Merged(config, id)) != map[]
                             :: JObj(Persisted(Merged(config, id)))
    {
      var id := catalog[i];
      assert catalog[..i + 1] == catalog[..i] + [id];
      if id in SUPPORTED {
        var persisted := PersistedKeys(Merged(config, id));
        if persisted != map[] {
          engines := engines[id := JObj(persisted)];
        }
      }
    }
    assert catalog[..|catalog|] == catalog;
    assert engines == PersistedEngines(config);
    file := map["active_engine" := JStr(NormalizeEngine(config.activeEngine)),
                "fallback_on_error" := JBool(config.fallback),
                "engines" := JObj(engines),
                "updated_at" := JStr(updatedAt)];
  }

  // ---- canonical values ----

  lemma SettingWords(s: string)
    requires s in {"enabled", "disabled", "none", "low", "medium", "high", "xhigh", "standard", "priority", "flex"}
    ensures s != "" && Lower(Strip(s)) == s
  {
    hide Strip, Lower;
    assert Word(s);
    WordNormal(s);
  }

  lemma ThinkingTwice(raw: string)
    ensures NormalizeThinking(NormalizeThinking(raw)) == NormalizeThinking(raw) && NormalizeThinking(raw) != ""
  {
    hide Lower, Strip;
    SettingWords("enabled");
    SettingWords("disabled");
  }

  lemma EffortTwice(raw: string)
    ensures NormalizeEffort(NormalizeEffort(raw)) == NormalizeEffort(raw) && NormalizeEffort(raw) != ""
  {
    hide Lower, Strip;
    AliasedWords(EFFORTS, Lower(Strip(OrElse(raw, "medium"))), "medium");
  }

  lemma SpeedTwice(raw: string)
    ensures NormalizeSpeed(NormalizeSpeed(raw)) == NormalizeSpeed(raw) && NormalizeSpeed(raw) != ""
  {
    hide Lower, Strip;
    AliasedWords(SPEEDS, Lower(Strip(OrElse(raw, "standard"))), "standard");
  }

  /** Every value of the two alias tables is a plain word that the table maps to itself. */
  lemma AliasedWords(table: map<string, string>, s: string, default: string)
    requires (table == EFFORTS && default == "medium") || (table == SPEEDS && default == "standard")
    ensures var v := Aliased(table, s, default);
            v != "" && Lower(Strip(v)) == v && v in table && table[v] == v
  {
    hide Lower, Strip;
    SettingWords(Aliased(table, s, default));
  }
}
