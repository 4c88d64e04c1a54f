/** Saving the loaded settings and loading them again gives the same settings, although the save drops legacy flat
    keys, planned engines and unknown fields. */
module EngineRoundTrip {
  import opened Text
  import opened Json
  import opened Keyed
  import opened EngineSettings

  const FLAT_KEYS: set<string> :=
    {"model", "thinking", "speed", "base_url", "api_key_env", "context_window", "max_tokens"}

  // ---- the saved file ----

  lemma LastCharsDiffer(s: string, t: string)
    requires s != "" && t != "" && s[|s| - 1] != t[|t| - 1]
    ensures s != t
  {
  }

  /** A legacy flat key is never one of the keys of a saved file. */
  lemma FlatKeyAbsent(id: string, key: string, config: Config, updatedAt: string)
    requires key in FLAT_KEYS
    ensures id + "_" + key !in Payload(config, updatedAt)
  {
    hide PersistedEngines, NormalizeEngine;
    var s := id + "_" + key;
    assert s[|s| - 1] == key[|key| - 1] && s[|s| - 2] == key[|key| - 2];
    assert key[|key| - 1] != 'e' && key[|key| - 1] != 'r' && key[|key| - 1] != 't';
    LastCharsDiffer(s, "active_engine");
    LastCharsDiffer(s, "fallback_on_error");
    LastCharsDiffer(s, "updated_at");
    assert key == "max_tokens" ==> key[|key| - 2] == 'n';
    assert "engines"[5] == 'e' && "engines"[6] == 's';
    assert s != "engines";
  }

  lemma SavedEngine(config: Config, updatedAt: string, id: string)
    requires id in SUPPORTED
    ensures EngineFile(id, Payload(config, updatedAt)) == Persisted(Merged(config, id))
  {
    hide Merged, NormalizeEngine;
    assert Get(Payload(config, updatedAt), "engines") == JObj(PersistedEngines(config));
  }

  // ---- one setting ----

  lemma ShowNonEmpty(w: World, j: Json)
    requires Truthy(j)
    ensures Show(w, j) != ""
  {
  }

  lemma TokensOk(id: string)
    requires Catalog(id).tokens.Some?
    ensures var t := Catalog(id).tokens.value; 1024 <= t.window && 64 <= t.maxOutput && (id == "deepseek" || id == "openai")
  {
  }

  /** Loaded token limits are always within bounds, whatever the file and the environment say. */
  lemma LoadedBounds(w: World, id: string, e: Object, f: Object)
    requires Catalog(id).tokens.Some?
    ensures var t := Catalog(id).tokens.value;
            && 1024 <= ContextWindow(w, id, e, f, t) <= t.window
            && 64 <= MaxTokens(w, id, e, f, t) <= ContextWindow(w, id, e, f, t)
            && MaxTokens(w, id, e, f, t) <= t.maxOutput
  {
    hide Catalog, EnvValue, ParseInt, Layered;
    TokensOk(id);
  }

  /** Saved token limits are read back as they were saved. */
  lemma TokensReload(w: World, id: string, e: Object, f: Object, window: int, tokens: int)
    requires Catalog(id).tokens.Some?
    requires var t := Catalog(id).tokens.value;
             1024 <= window <= t.window && 64 <= tokens <= window && tokens <= t.maxOutput
    requires Get(e, "context_window") == JInt(window) && Get(e, "max_tokens") == JInt(tokens)
    ensures var t := Catalog(id).tokens.value;
            ContextWindow(w, id, e, f, t) == window && MaxTokens(w, id, e, f, t) == tokens
  {
    hide Catalog, EnvValue;
  }

  // ---- one engine ----

  /** The persisted part of an engine's data answers for its persisted keys. */
  lemma PersistedGet(c: Object, k: string)
    requires k in PERSISTED_KEYS
    ensures Get(Persisted(c), k) == if Worth(Get(c, k)) then Get(c, k) else JNull
  {
  }

  lemma ComputedGets(w: World, id: string, e: Object, f: Object)
    ensures var c := e + Computed(w, id, e, f);
            var d := Catalog(id);
            && Get(c, "model") == JStr(TextSetting(w, e, f, id, "model", EnvValue(w, id, "_MODEL"), d.model))
            && Get(c, "thinking") == JStr(Thinking(id, TextSetting(w, e, f, id, "thinking", EnvValue(w, id, "_THINKING"), d.thinking)))
            && Get(c, "speed") == JStr(Speed(id, TextSetting(w, e, f, id, "speed", EnvValue(w, id, "_SPEED"), d.speed)))
            && Get(c, "base_url") == JStr(TextSetting(w, e, f, id, "base_url", EnvValue(w, id, "_BASE_URL"), d.baseUrl))
            && Get(c, "api_key_env") == JStr(TextSetting(w, e, f, id, "api_key_env", JNull, d.apiKeyEnv))
            && Get(c, "enabled") == JBool(NormalizeBool(Get(e, "enabled"), true))
            && (d.tokens.Some? ==>
                  && Get(c, "context_window") == JInt(ContextWindow(w, id, e, f, d.tokens.value))
                  && Get(c, "max_tokens") == JInt(MaxTokens(w, id, e, f, d.tokens.value)))
  {
    hide Catalog, TextSetting, Thinking, Speed, ContextWindow, MaxTokens, NormalizeBool, EnvValue;
  }

  /** `c` are settings as a load or an edit leaves them: canonical, and within bounds. */
  ghost predicate Canonical(w: World, id: string, c: Object) {
    var d := Catalog(id);
    && (forall k :: k in {"model", "thinking", "speed", "base_url", "api_key_env"} ==> Get(c, k).JStr?)
    && Get(c, "enabled").JBool?
    && Thinking(id, Get(c, "thinking").s) == Get(c, "thinking").s
    && Speed(id, Get(c, "speed").s) == Get(c, "speed").s
    && (d.tokens.Some? ==>
          && Get(c, "context_window").JInt? && Get(c, "max_tokens").JInt?
          && 1024 <= Get(c, "context_window").i <= d.tokens.value.window
          && 64 <= Get(c, "max_tokens").i <= Get(c, "context_window").i
          && Get(c, "max_tokens").i <= d.tokens.value.maxOutput)
  }

  /** What layer stands in for a text setting that is saved as "". */
  function Fallthrough(w: World, id: string, key: string): string {
    var d := Catalog(id);
    match key
    case "model" => TextSetting(w, map[], map[], id, key, EnvValue(w, id, "_MODEL"), d.model)
    case "thinking" => Thinking(id, TextSetting(w, map[], map[], id, key, EnvValue(w, id, "_THINKING"), d.thinking))
    case "speed" => Speed(id, TextSetting(w, map[], map[], id, key, EnvValue(w, id, "_SPEED"), d.speed))
    case "base_url" => TextSetting(w, map[], map[], id, key, EnvValue(w, id, "_BASE_URL"), d.baseUrl)
    case _ => TextSetting(w, map[], map[], id, key, JNull, d.apiKeyEnv)
  }

  /** The setting a saved text value is read back as. */
  function ReadBack(w: World, id: string, key: string, v: string): string {
    if v != "" then v else Fallthrough(w, id, key)
  }

  /** A setting read from the saved entry of an engine: the entry, or what stands behind it. */
  lemma SavedText(w: World, id: string, c: Object, f': Object, key: string, env: Json, default: string)
    requires key in {"model", "thinking", "speed", "base_url", "api_key_env"} && Get(c, key).JStr?
    requires id + "_" + key !in f'
    ensures TextSetting(w, Persisted(c), f', id, key, env, default)
            == if Get(c, key).s != "" then Get(c, key).s else TextSetting(w, map[], map[], id, key, env, default)
  {
    hide Persisted;
    PersistedGet(c, key);
  }

  /** Loading an engine from a file that holds the persisted part of canonical data `c` gives that data back, with
      empty texts replaced by what stands behind them. */
  lemma ComputedReload(w: World, id: string, c: Object, f': Object)
    requires Canonical(w, id, c)
    requires forall key :: key in FLAT_KEYS ==> id + "_" + key !in f'
    ensures var r := Persisted(c) + Computed(w, id, Persisted(c), f');
            && (forall k :: k in {"model", "thinking", "speed", "base_url", "api_key_env"} ==>
                 Get(r, k) == JStr(ReadBack(w, id, k, Get(c, k).s)))
            && Get(r, "enabled") == Get(c, "enabled")
            && (Catalog(id).tokens.Some? ==>
                 Get(r, "context_window") == Get(c, "context_window") && Get(r, "max_tokens") == Get(c, "max_tokens"))
  {
    hide Persisted, Catalog, TextSetting, Thinking, Speed, ContextWindow, MaxTokens, EnvValue, Computed;
    var p := Persisted(c);
    var d := Catalog(id);
    ComputedGets(w, id, p, f');
    SavedText(w, id, c, f', "model", EnvValue(w, id, "_MODEL"), d.model);
    SavedText(w, id, c, f', "thinking", EnvValue(w, id, "_THINKING"), d.thinking);
    SavedText(w, id, c, f', "speed", EnvValue(w, id, "_SPEED"), d.speed);
    SavedText(w, id, c, f', "base_url", EnvValue(w, id, "_BASE_URL"), d.baseUrl);
    SavedText(w, id, c, f', "api_key_env", JNull, d.apiKeyEnv);
    PersistedGet(c, "enabled");
    PersistedGet(c, "context_window");
    PersistedGet(c, "max_tokens");
    if d.tokens.Some? {
      TokensReload(w, id, p, f', Get(c, "context_window").i, Get(c, "max_tokens").i);
    }
  }

  /** Loaded data is canonical, and an empty text in it has nothing behind it. */
  lemma LoadedCanonical(w: World, id: string, f: Object)
    ensures var c := EngineConfig(w, id, f);
            && Canonical(w, id, c)
            && forall k :: k in {"model", "thinking", "speed", "base_url", "api_key_env"} ==>
                 ReadBack(w, id, k, Get(c, k).s) == Get(c, k).s
  {
    hide Catalog, TextSetting, Thinking, Speed, ContextWindow, MaxTokens, EnvValue, Computed, EngineFile;
    var e := EngineFile(id, f);
    var d := Catalog(id);
    ComputedGets(w, id, e, f);
    if d.tokens.Some? {
      LoadedBounds(w, id, e, f);
    }
    EmptyText(w, id, e, f, "model", EnvValue(w, id, "_MODEL"), d.model);
    EmptyText(w, id, e, f, "thinking", EnvValue(w, id, "_THINKING"), d.thinking);
    EmptyText(w, id, e, f, "speed", EnvValue(w, id, "_SPEED"), d.speed);
    EmptyText(w, id, e, f, "base_url", EnvValue(w, id, "_BASE_URL"), d.baseUrl);
    EmptyText(w, id, e, f, "api_key_env", JNull, d.apiKeyEnv);
    CanonicalWords(id, TextSetting(w, e, f, id, "thinking", EnvValue(w, id, "_THINKING"), d.thinking),
                   TextSetting(w, e, f, id, "speed", EnvValue(w, id, "_SPEED"), d.speed));
  }

  lemma CanonicalWords(id: string, thinking: string, speed: string)
    ensures Thinking(id, Thinking(id, thinking)) == Thinking(id, thinking)
    ensures Thinking(id, thinking) == "" ==> thinking == ""
    ensures Speed(id, Speed(id, speed)) == Speed(id, speed)
    ensures Speed(id, speed) == "" ==> speed == ""
  {
    hide NormalizeThinking, NormalizeEffort, NormalizeSpeed;
    ThinkingTwice(thinking);
    EffortTwice(thinking);
    SpeedTwice(speed);
  }

  lemma EmptyText(w: World, id: string, e: Object, f: Object, key: string, env: Json, default: string)
    ensures TextSetting(w, e, f, id, key, env, default) == "" ==>
              TextSetting(w, map[], map[], id, key, env, default) == ""
  {
    var value := Layered(e, f, id, key, env, JStr(default));
    if Truthy(value) {
      ShowNonEmpty(w, value);
    }
  }

  // ---- the whole file ----

  predicate TextKey(k: string) {
    k == "model" || k == "thinking" || k == "speed" || k == "base_url" || k == "api_key_env"
  }

  /** The same settings: what is worth saving is the same under every saved key. */
  ghost predicate SameSaved(c: Object, d: Object) {
    forall k :: k in PERSISTED_KEYS ==> Get(c, k) == Get(d, k) || (!Worth(Get(c, k)) && !Worth(Get(d, k)))
  }

  lemma SamePersisted(c: Object, d: Object)
    requires SameSaved(c, d)
    ensures Persisted(c) == Persisted(d)
  {
    forall k | k in PERSISTED_KEYS
      ensures (k in Persisted(c) <==> k in Persisted(d)) && Get(Persisted(c), k) == Get(Persisted(d), k)
    {
      PersistedGet(c, k);
      PersistedGet(d, k);
    }
  }

  /** A key the load does not compute is read from the saved entry as it was. */
  lemma RawReload(w: World, id: string, c: Object, f': Object, k: string)
    requires k in PERSISTED_KEYS
    ensures var r := Persisted(c) + Computed(w, id, Persisted(c), f');
            k !in Computed(w, id, Persisted(c), f') ==> Get(r, k) == if Worth(Get(c, k)) then Get(c, k) else JNull
  {
    hide Computed;
    PersistedGet(c, k);
  }

  lemma ComputedKeys(w: World, id: string, e: Object, f: Object, k: string)
    ensures k in Computed(w, id, e, f) <==>
              TextKey(k) || k == "enabled" || (Catalog(id).tokens.Some? && (k == "context_window" || k == "max_tokens"))
  {
    hide Catalog, TextSetting, Thinking, Speed, ContextWindow, MaxTokens, NormalizeBool, EnvValue;
  }

  /** Whatever canonical data is saved for a supported engine, loading the file gives it back: computed settings
      exactly, except that an empty text is what stands behind it, and every other saved key as it was. */
  lemma EngineReload(w: World, id: string, config: Config, updatedAt: string)
    requires id in SUPPORTED && Canonical(w, id, Merged(config, id))
    ensures var c := Merged(config, id);
            var r := EngineConfig(w, id, Payload(config, updatedAt));
            && (forall k :: TextKey(k) ==> Get(r, k) == JStr(ReadBack(w, id, k, Get(c, k).s)))
            && (forall k :: k in PERSISTED_KEYS && !TextKey(k) ==>
                 Get(r, k) == Get(c, k) || (!Worth(Get(r, k)) && !Worth(Get(c, k))))
            && Get(r, "enabled") == Get(c, "enabled")
            && (Catalog(id).tokens.Some? ==>
                 Get(r, "context_window") == Get(c, "context_window") && Get(r, "max_tokens") == Get(c, "max_tokens"))
  {
    hide Catalog, Merged, Payload, Canonical, Computed, Persisted, ReadBack, Worth;
    var c := Merged(config, id);
    var f' := Payload(config, updatedAt);
    SavedEngine(config, updatedAt, id);
    forall key | key in FLAT_KEYS ensures id + "_" + key !in f' {
      FlatKeyAbsent(id, key, config, updatedAt);
    }
    ComputedReload(w, id, c, f');
    var r := EngineConfig(w, id, f');
    forall k | k in PERSISTED_KEYS && !TextKey(k)
      ensures Get(r, k) == Get(c, k) || (!Worth(Get(r, k)) && !Worth(Get(c, k)))
    {
      ComputedKeys(w, id, Persisted(c), f', k);
      RawReload(w, id, c, f', k);
      NullNotWorth();
    }
  }

  lemma NullNotWorth()
    ensures !Worth(JNull)
  {
  }

  /** The top-level DeepSeek and OpenAI fields of loaded settings repeat what the engines say. */
  lemma MergedLoaded(w: World, f: Object, id: string)
    requires id in SUPPORTED
    ensures Merged(Load(w, f), id) == EngineConfig(w, id, f)
  {
    hide Computed, Catalog, TextSetting, EngineFile, ActiveEngine, Fallback, NormalizeThinking, EngineConfig;
    assert forall i :: i in SUPPORTED ==> i in ENGINE_IDS;
    LoadedFields(w, f);
    var c := EngineConfig(w, id, f);
    assert EngineOf(Load(w, f), id) == c;
    if id == "deepseek" {
      assert Merged(Load(w, f), id) == c["model" := Get(c, "model")]["thinking" := Get(c, "thinking")];
    } else if id == "openai" {
      assert Merged(Load(w, f), id) == c["model" := Get(c, "model")];
    }
  }

  lemma LoadedFields(w: World, f: Object)
    ensures var d, o, l := EngineConfig(w, "deepseek", f), EngineConfig(w, "openai", f), Load(w, f);
            && "model" in d && "thinking" in d && "model" in o
            && Get(d, "model") == JStr(l.deepseekModel) && l.deepseekModel != ""
            && Get(d, "thinking") == JStr(l.deepseekThinking) && l.deepseekThinking != ""
            && NormalizeThinking(l.deepseekThinking) == l.deepseekThinking
            && Get(o, "model") == JStr(l.openaiModel) && l.openaiModel != ""
  {
    hide TextSetting, ContextWindow, MaxTokens, NormalizeThinking, NormalizeEffort, NormalizeSpeed, EnvValue, Computed,
         EngineFile, ActiveEngine, Fallback, Configs;
    var e, g := EngineFile("deepseek", f), EngineFile("openai", f);
    ComputedGets(w, "deepseek", e, f);
    ComputedGets(w, "openai", g, f);
    DefaultedText(w, e, f, "deepseek", "model", EnvValue(w, "deepseek", "_MODEL"), "deepseek-v4-flash");
    DefaultedText(w, g, f, "openai", "model", EnvValue(w, "openai", "_MODEL"), "gpt-5.5");
    ThinkingTwice(TextSetting(w, e, f, "deepseek", "thinking", EnvValue(w, "deepseek", "_THINKING"), "enabled"));
    ComputedKeys(w, "deepseek", e, f, "model");
    ComputedKeys(w, "deepseek", e, f, "thinking");
    ComputedKeys(w, "openai", g, f, "model");
  }

  lemma DefaultedText(w: World, e: Object, f: Object, id: string, key: string, env: Json, default: string)
    requires default != ""
    ensures TextSetting(w, e, f, id, key, env, default) != ""
  {
    ShowNonEmpty(w, Layered(e, f, id, key, env, JStr(default)));
  }

  lemma SupportedWord(id: string)
    requires id in SUPPORTED
    ensures Word(id) && Strip(id) == id && id !in {"fallback", "file_stub", "file-stub"} && id in ENGINE_IDS
  {
    hide Strip, Lower;
    WordNormal(id);
  }

  lemma EngineIdsNormal(id: string)
    requires id in SUPPORTED
    ensures NormalizeEngine(id) == id
  {
    hide Strip, Lower, Word;
    SupportedWord(id);
    WordNormal(id);
  }

  /** Every name is accepted, and resolves to a supported engine of the catalog: the rejections that guard an engine
      edit can never fire, and an unknown name edits DeepSeek. */
  lemma EveryNameResolves(value: string)
    ensures NormalizeEngine(value) in SUPPORTED && NormalizeEngine(value) in ENGINE_IDS
    ensures NormalizeEngine(NormalizeEngine(value)) == NormalizeEngine(value)
    ensures Lower(Strip(OrElse(value, "deepseek"))) !in SUPPORTED + {"fallback", "file_stub", "file-stub"} ==>
              NormalizeEngine(value) == "deepseek"
  {
    hide Strip, Lower;
    EngineIdsNormal(NormalizeEngine(value));
  }

  lemma ActiveSupported(w: World, f: Object)
    ensures ActiveEngine(w, f) in SUPPORTED
  {
    hide EngineConfig, Strip, ApiKeyConfigured, NormalizeEngine;
    var fromEnv := if "AITEAMOS_AI_ENGINE" in w.env then JStr(w.env["AITEAMOS_AI_ENGINE"]) else JNull;
    EveryNameResolves(Show(w, Or(Get(f, "active_engine"), fromEnv)));
  }

  lemma SavedGets(config: Config, updatedAt: string)
    ensures Get(Payload(config, updatedAt), "active_engine") == JStr(NormalizeEngine(config.activeEngine))
    ensures "fallback_on_error" in Payload(config, updatedAt)
    ensures Payload(config, updatedAt)["fallback_on_error"] == JBool(config.fallback)
  {
    hide NormalizeEngine, PersistedEngines;
  }

  /** A saved file names its active engine and its fallback flag outright. */
  lemma SavedFlags(w: World, config: Config, updatedAt: string)
    ensures var f' := Payload(config, updatedAt);
            ActiveEngine(w, f') == NormalizeEngine(config.activeEngine) && Fallback(w, f') == config.fallback
  {
    hide EngineConfig, NormalizeEngine, PersistedEngines, Payload, DefaultEngine, Strip, Lower, Word;
    EveryNameResolves(config.activeEngine);
    SupportedWord(NormalizeEngine(config.activeEngine));
    SavedGets(config, updatedAt);
  }

  /** Load, save, load: the same active engine, fallback flag and top-level fields, and for every supported engine the
      same value under every computed or saved key. Saving the reloaded settings writes the same file again. */
  lemma SettingsRoundTrip(w: World, f: Object, savedAt: string, again: string)
    ensures var l := Load(w, f);
            var r := Load(w, Payload(l, savedAt));
            && r.activeEngine == l.activeEngine && r.fallback == l.fallback
            && r.deepseekModel == l.deepseekModel && r.deepseekThinking == l.deepseekThinking && r.openaiModel == l.openaiModel
            && (forall id :: id in SUPPORTED ==> SameEngine(EngineOf(l, id), EngineOf(r, id)))
            && Payload(r, again) == Payload(l, again)
  {
    hide Load, Payload, EngineConfig, NormalizeEngine, Persisted, Merged, SameEngine;
    var l := Load(w, f);
    var f' := Payload(l, savedAt);
    var r := Load(w, f');
    forall id | id in SUPPORTED
      ensures SameEngine(EngineOf(l, id), EngineOf(r, id)) && Persisted(Merged(l, id)) == Persisted(Merged(r, id))
    {
      EngineRoundTrip(w, f, savedAt, id);
    }
    LoadedTop(w, f);
    LoadedTop(w, f');
    SavedFlags(w, l, savedAt);
    ActiveSupported(w, f);
    EngineIdsNormal(l.activeEngine);
    TopFieldsSame(w, f, savedAt);
    PayloadSame(l, r, again);
  }

  /** Two engines with the same computed settings and the same saved values. */
  ghost predicate SameEngine(c: Object, r: Object) {
    (forall k :: TextKey(k) || k == "enabled" ==> Get(r, k) == Get(c, k)) && SameSaved(c, r)
  }

  lemma EngineRoundTrip(w: World, f: Object, savedAt: string, id: string)
    requires id in SUPPORTED
    ensures var l := Load(w, f);
            var r := Load(w, Payload(l, savedAt));
            SameEngine(EngineOf(l, id), EngineOf(r, id)) && Persisted(Merged(l, id)) == Persisted(Merged(r, id))
  {
    hide Load, Payload, EngineConfig, Persisted, Merged, SameSaved, TextKey;
    LoadedEngine(w, f, id);
    LoadedEngine(w, Payload(Load(w, f), savedAt), id);
    EngineSame(w, f, id, savedAt);
    SamePersisted(EngineConfig(w, id, f), EngineConfig(w, id, Payload(Load(w, f), savedAt)));
  }

  lemma TopFieldsSame(w: World, f: Object, savedAt: string)
    ensures var l := Load(w, f);
            var r := Load(w, Payload(l, savedAt));
            r.deepseekModel == l.deepseekModel && r.deepseekThinking == l.deepseekThinking && r.openaiModel == l.openaiModel
  {
    hide Load, Payload, EngineConfig, NormalizeThinking, SameSaved;
    var f' := Payload(Load(w, f), savedAt);
    LoadedFields(w, f);
    LoadedFields(w, f');
    EngineSame(w, f, "deepseek", savedAt);
    EngineSame(w, f, "openai", savedAt);
  }

  lemma LoadedEngine(w: World, f: Object, id: string)
    requires id in SUPPORTED
    ensures var l := Load(w, f); id in l.engines && l.engines[id] == EngineConfig(w, id, f) && Merged(l, id) == l.engines[id]
  {
    hide EngineConfig, ActiveEngine, Fallback, NormalizeThinking;
    MergedLoaded(w, f, id);
    assert id in ENGINE_IDS;
  }

  lemma LoadedTop(w: World, f: Object)
    ensures Load(w, f).activeEngine == ActiveEngine(w, f) && Load(w, f).fallback == Fallback(w, f)
  {
  }

  lemma EngineSame(w: World, f: Object, id: string, savedAt: string)
    requires id in SUPPORTED
    ensures var c := EngineConfig(w, id, f);
            var r := EngineConfig(w, id, Payload(Load(w, f), savedAt));
            && (forall k :: TextKey(k) || k == "enabled" ==> Get(r, k) == Get(c, k))
            && SameSaved(c, r)
  {
    hide Load, Payload, EngineConfig, Persisted, Merged, Worth, ReadBack;
    MergedLoaded(w, f, id);
    LoadedCanonical(w, id, f);
    EngineReload(w, id, Load(w, f), savedAt);
    var c := EngineConfig(w, id, f);
    forall k | TextKey(k) ensures k in {"model", "thinking", "speed", "base_url", "api_key_env"} && Get(c, k).JStr? {
    }
  }

  lemma PayloadSame(l: Config, r: Config, savedAt: string)
    requires l.activeEngine == r.activeEngine && l.fallback == r.fallback
    requires forall id :: id in SUPPORTED ==> Persisted(Merged(l, id)) == Persisted(Merged(r, id))
    ensures Payload(l, savedAt) == Payload(r, savedAt)
  {
    hide Persisted, Merged, NormalizeEngine;
    assert PersistedEngines(l) == PersistedEngines(r);
  }
}
