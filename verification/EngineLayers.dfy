/** Which layer each loaded AI Engine setting comes from, and what the words in it mean. */
module EngineLayers {
  import opened Text
  import opened Json
  import opened Keyed
  import opened Numbers
  import opened EngineSettings
  import opened EngineRoundTrip

  // ---- layers ----

  /** `v` is the first truthy value of the list. */
  ghost predicate FirstGiven(layers: seq<Json>, v: Json) {
    exists i :: 0 <= i < |layers| && layers[i] == v && Truthy(v) && forall j :: 0 <= j < i ==> !Truthy(layers[j])
  }

  ghost predicate NoneGiven(layers: seq<Json>) { forall i :: 0 <= i < |layers| ==> !Truthy(layers[i]) }

  /** How the engines are spelled in the names of environment variables. */
  const SPELLED: map<string, string> :=
    map["stub" := "STUB", "deepseek" := "DEEPSEEK", "openai" := "OPENAI", "gemini" := "GEMINI", "kimi" := "KIMI",
        "ollama" := "OLLAMA", "lmstudio" := "LMSTUDIO", "vllm" := "VLLM", "codex" := "CODEX",
        "claude-code" := "CLAUDE_CODE", "cursor" := "CURSOR", "openhands" := "OPENHANDS", "opencode" := "OPENCODE",
        "qoder" := "QODER"]

  lemma {:induction false} EnvPrefixLetters(id: string)
    ensures |EnvPrefix(id)| == |id| && forall i :: 0 <= i < |id| ==> EnvPrefix(id)[i] == UpperChar(id[i])
  {
    if id != "" {
      EnvPrefixLetters(id[1..]);
    }
  }

  lemma SpelledOne(id: string, name: string)
    requires |name| == |id| && forall i :: 0 <= i < |id| ==> name[i] == UpperChar(id[i])
    ensures EnvPrefix(id) == name
  {
    EnvPrefixLetters(id);
  }

  lemma SpelledShort()
    ensures EnvPrefix("stub") == "STUB"
    ensures EnvPrefix("deepseek") == "DEEPSEEK"
    ensures EnvPrefix("openai") == "OPENAI"
    ensures EnvPrefix("gemini") == "GEMINI"
    ensures EnvPrefix("kimi") == "KIMI"
    ensures EnvPrefix("ollama") == "OLLAMA"
    ensures EnvPrefix("lmstudio") == "LMSTUDIO"
  {
    hide EnvPrefix;
    SpelledOne("stub", "STUB");
    SpelledOne("deepseek", "DEEPSEEK");
    SpelledOne("openai", "OPENAI");
    SpelledOne("gemini", "GEMINI");
    SpelledOne("kimi", "KIMI");
    SpelledOne("ollama", "OLLAMA");
    SpelledOne("lmstudio", "LMSTUDIO");
  }

  lemma SpelledLong()
    ensures EnvPrefix("vllm") == "VLLM"
    ensures EnvPrefix("codex") == "CODEX"
    ensures EnvPrefix("claude-code") == "CLAUDE_CODE"
    ensures EnvPrefix("cursor") == "CURSOR"
    ensures EnvPrefix("openhands") == "OPENHANDS"
    ensures EnvPrefix("opencode") == "OPENCODE"
    ensures EnvPrefix("qoder") == "QODER"
  {
    hide EnvPrefix;
    SpelledOne("vllm", "VLLM");
    SpelledOne("codex", "CODEX");
    SpelledOne("claude-code", "CLAUDE_CODE");
    SpelledOne("cursor", "CURSOR");
    SpelledOne("openhands", "OPENHANDS");
    SpelledOne("opencode", "OPENCODE");
    SpelledOne("qoder", "QODER");
  }

  lemma SpelledAs(id: string)
    requires id in ENGINE_IDS
    ensures id in SPELLED && EnvPrefix(id) == SPELLED[id]
  {
    hide EnvPrefix;
    SpelledShort();
    SpelledLong();
  }

  /** An environment variable, null when it is not set. */
  function Variable(w: World, name: string): Json { if name in w.env then JStr(w.env[name]) else JNull }

  /** The engine's own entry of the file: a member of a member, both of which must be objects. */
  ghost predicate OwnEntry(file: Object, id: string, key: string, v: Json) {
    exists engines, own ::
      "engines" in file && file["engines"] == JObj(engines) && id in engines && engines[id] == JObj(own)
      && key in own && own[key] == v
  }

  lemma OwnEntryExactly(file: Object, id: string, key: string)
    ensures key in EngineFile(id, file) <==> exists v :: OwnEntry(file, id, key, v)
    ensures key in EngineFile(id, file) ==> OwnEntry(file, id, key, EngineFile(id, file)[key])
  {
    if key in EngineFile(id, file) {
      var engines := file["engines"].fields;
      var own := engines[id].fields;
      assert OwnEntry(file, id, key, own[key]);
    }
  }

  // ---- text settings ----

  /** The layers of a text setting after the engine's own entry and the legacy flat key. */
  function FurtherLayers(w: World, id: string, key: string): seq<Json>
    requires id in SPELLED
  {
    var c := Catalog(id);
    match key
    case "model" => [Variable(w, "AITEAMOS_" + SPELLED[id] + "_MODEL"), JStr(c.model)]
    case "thinking" => [Variable(w, "AITEAMOS_" + SPELLED[id] + "_THINKING"), JStr(c.thinking)]
    case "speed" => [Variable(w, "AITEAMOS_" + SPELLED[id] + "_SPEED"), JStr(c.speed)]
    case "base_url" => [Variable(w, "AITEAMOS_" + SPELLED[id] + "_BASE_URL"), JStr(c.baseUrl)]
    case _ => [JStr(c.apiKeyEnv)]
  }

  /** The words of the two settings that are normalised. */
  function Stored(id: string, key: string, text: string): string {
    if key == "thinking" && id == "deepseek" then NormalizeThinking(text)
    else if key == "thinking" && id == "openai" then NormalizeEffort(text)
    else if key == "speed" && id == "openai" then NormalizeSpeed(text)
    else text
  }

  lemma LayeredFirst(own: Object, file: Object, id: string, key: string, env: Json, default: Json)
    ensures var layers := [Get(own, key), Get(file, id + "_" + key), env, default];
            var v := Layered(own, file, id, key, env, default);
            && (NoneGiven(layers) ==> !Truthy(v)) && (!NoneGiven(layers) ==> FirstGiven(layers, v))
  {
    var layers := [Get(own, key), Get(file, id + "_" + key), env, default];
    var v := Layered(own, file, id, key, env, default);
    hide Truthy;
    if Truthy(layers[0]) {
      assert v == layers[0];
    } else if Truthy(layers[1]) {
      assert v == layers[1];
    } else if Truthy(layers[2]) {
      assert v == layers[2];
    } else {
      assert v == layers[3];
    }
  }

  /** Leaving out a layer that is not given changes nothing. */
  lemma WithoutLayer(a: seq<Json>, x: Json, b: seq<Json>, v: Json)
    requires !Truthy(x)
    ensures NoneGiven(a + b) ==> NoneGiven(a + [x] + b)
    ensures FirstGiven(a + b, v) ==> FirstGiven(a + [x] + b, v)
  {
    hide Truthy;
    var long, short, n := a + [x] + b, a + b, |a|;
    if NoneGiven(short) {
      forall i | 0 <= i < |long| ensures !Truthy(long[i]) {
        assert long[i] == if i < n then short[i] else if i == n then x else short[i - 1];
      }
    }
    if i :| 0 <= i < |short| && short[i] == v && Truthy(v) && forall j :: 0 <= j < i ==> !Truthy(short[j]) {
      var k := if i < n then i else i + 1;
      forall j | 0 <= j < k ensures !Truthy(long[j]) {
        assert long[j] == if j < n then short[j] else if j == n then x else short[j - 1];
      }
      assert long[k] == v;
    }
  }

  lemma NullNotGiven()
    ensures !Truthy(JNull)
  {
  }

  lemma GivenNotNone(layers: seq<Json>, v: Json)
    requires FirstGiven(layers, v)
    ensures !NoneGiven(layers)
  {
  }

  lemma FirstUnique(layers: seq<Json>, u: Json, v: Json)
    requires FirstGiven(layers, u) && FirstGiven(layers, v)
    ensures u == v
  {
    hide Truthy;
  }

  lemma TextFirst(w: World, own: Object, file: Object, id: string, key: string, env: Json, default: string, v: Json)
    ensures var layers := [Get(own, key), Get(file, id + "_" + key)] + [env, JStr(default)];
            var text := TextSetting(w, own, file, id, key, env, default);
            && layers == [Get(own, key), Get(file, id + "_" + key)] + [env] + [JStr(default)]
            && (FirstGiven(layers, v) ==> text == if v.JStr? then v.s else Show(w, v))
            && (NoneGiven(layers) ==> text == "")
  {
    LayeredFirst(own, file, id, key, env, JStr(default));
    var layers := [Get(own, key), Get(file, id + "_" + key), env, JStr(default)];
    assert layers == [Get(own, key), Get(file, id + "_" + key)] + [env, JStr(default)];
    var found := Layered(own, file, id, key, env, JStr(default));
    if FirstGiven(layers, v) {
      GivenNotNone(layers, v);
      hide Layered;
      if FirstGiven(layers, found) {
        FirstUnique(layers, v, found);
      }
    }
  }

  /** A loaded text setting is the first one given of: the engine's own entry, the legacy flat key, the non-empty
      environment variable of that name, and the catalog default; "" when there is none. The key's name has no
      environment variable of its own. */
  lemma LoadedText(w: World, id: string, file: Object, key: string, v: Json)
    requires id in ENGINE_IDS && key in {"model", "thinking", "speed", "base_url", "api_key_env"}
    ensures id in SPELLED
    ensures var layers := [Get(EngineFile(id, file), key), Get(file, id + "_" + key)] + FurtherLayers(w, id, key);
            var loaded := Get(EngineConfig(w, id, file), key);
            && (FirstGiven(layers, v) ==> loaded == JStr(Stored(id, key, if v.JStr? then v.s else Show(w, v))))
            && (NoneGiven(layers) ==> loaded == JStr(Stored(id, key, "")))
  {
    hide Catalog, NormalizeThinking, NormalizeEffort, NormalizeSpeed, EnvPrefix, EngineFile, Computed, ContextWindow, MaxTokens,
         NormalizeBool, TextSetting, Truthy, FirstGiven, NoneGiven, SPELLED;
    SpelledAs(id);
    var own, c := EngineFile(id, file), Catalog(id);
    ComputedGets(w, id, own, file);
    match key {
      case "model" => TextFirst(w, own, file, id, key, EnvValue(w, id, "_MODEL"), c.model, v);
      case "thinking" => TextFirst(w, own, file, id, key, EnvValue(w, id, "_THINKING"), c.thinking, v);
      case "speed" => TextFirst(w, own, file, id, key, EnvValue(w, id, "_SPEED"), c.speed, v);
      case "base_url" => TextFirst(w, own, file, id, key, EnvValue(w, id, "_BASE_URL"), c.baseUrl, v);
      case _ =>
        TextFirst(w, own, file, id, key, JNull, c.apiKeyEnv, v);
        NullNotGiven();
        WithoutLayer([Get(own, key), Get(file, id + "_" + key)], JNull, [JStr(c.apiKeyEnv)], v);
    }
  }

  // ---- limits ----

  /** `text` read as a number: the number, or nothing. A real number loses its fraction. */
  ghost predicate ReadsAs(w: World, v: Json, n: int) {
    || v == JInt(n)
    || (exists b :: v == JBool(b) && n == if b then 1 else 0)
    || (exists r :: v == JReal(r) && (if r >= 0.0 then n as real <= r < n as real + 1.0 else n as real - 1.0 < r <= n as real))
    || (exists s :: v == JStr(s) && w.parse(s) == Some(n))
  }

  lemma ParsedExactly(w: World, v: Json, n: int)
    ensures ParseInt(w, v) == Some(n) <==> ReadsAs(w, v, n)
  {
    match v {
      case JReal(r) =>
      case _ =>
    }
  }

  /** `n` is `v` moved into the range from `low` to `high`. */
  predicate MovedInto(v: int, low: int, high: int, n: int) {
    (v < low ==> n == low) && (low <= v <= high ==> n == v) && (high < v ==> n == high)
  }

  /** A loaded limit: `asked` is the first value given of the layers; a value that is not a number counts as the
      default. */
  ghost predicate LimitFrom(w: World, layers: seq<Json>, default: int, low: int, high: int, n: int) {
    forall v :: FirstGiven(layers, v) ==>
      && (forall k :: ReadsAs(w, v, k) ==> MovedInto(k, low, high, n))
      && ((forall k :: !ReadsAs(w, v, k)) ==> MovedInto(default, low, high, n))
  }

  lemma LimitRead(w: World, layers: seq<Json>, v: Json, default: int, low: int, high: int)
    requires low <= high && (FirstGiven(layers, v) || NoneGiven(layers))
    ensures LimitFrom(w, layers, default, low, high, NormalizeInt(w, v, default, low, high))
  {
    hide FirstGiven, NoneGiven, ParseInt, ReadsAs;
    forall u | FirstGiven(layers, u)
      ensures (forall k :: ReadsAs(w, u, k) ==> MovedInto(k, low, high, NormalizeInt(w, v, default, low, high)))
      ensures (forall k :: !ReadsAs(w, u, k)) ==> MovedInto(default, low, high, NormalizeInt(w, v, default, low, high))
    {
      GivenNotNone(layers, u);
      FirstUnique(layers, u, v);
      forall k ensures ReadsAs(w, u, k) <==> ParseInt(w, u) == Some(k) {
        ParsedExactly(w, u, k);
      }
    }
  }

  /** The loaded context window is the first one given of: the engine's own entry, the legacy flat key, the environment
      variable, the catalog's; moved into the range from 1024 to the catalog's. The output limit likewise, where
      `_MAX_OUTPUT_TOKENS` comes before `_MAX_TOKENS`, moved into the range from 64 to the catalog's maximum, and never
      above the window. */
  lemma LoadedLimits(w: World, id: string, file: Object)
    requires id in ENGINE_IDS && Catalog(id).tokens.Some?
    ensures id in SPELLED
    ensures var t := Catalog(id).tokens.value;
            var own, c := EngineFile(id, file), EngineConfig(w, id, file);
            var windows := [Get(own, "context_window"), Get(file, id + "_" + "context_window"),
                            Variable(w, "AITEAMOS_" + SPELLED[id] + "_CONTEXT_WINDOW"), JInt(t.window)];
            var limits := [Get(own, "max_tokens"), Get(file, id + "_" + "max_tokens"),
                           Variable(w, "AITEAMOS_" + SPELLED[id] + "_MAX_OUTPUT_TOKENS"),
                           Variable(w, "AITEAMOS_" + SPELLED[id] + "_MAX_TOKENS"), JInt(t.maxTokens)];
            && Get(c, "context_window").JInt? && Get(c, "max_tokens").JInt?
            && LimitFrom(w, windows, t.window, 1024, t.window, Get(c, "context_window").i)
            && exists n :: LimitFrom(w, limits, t.maxTokens, 64, t.maxOutput, n)
                           && Get(c, "max_tokens").i == if n < Get(c, "context_window").i then n else Get(c, "context_window").i
  {
    hide Catalog, EngineFile, Computed, SPELLED, LimitFrom, ContextWindow, MaxTokens;
    SpelledAs(id);
    TokensOk(id);
    var t, own := Catalog(id).tokens.value, EngineFile(id, file);
    ComputedGets(w, id, own, file);
    WindowLoaded(w, id, own, file, t);
    OutputLoaded(w, id, own, file, t);
  }

  lemma WindowLoaded(w: World, id: string, own: Object, file: Object, t: Tokens)
    requires id in ENGINE_IDS && id in SPELLED && t.window >= 1024
    ensures var windows := [Get(own, "context_window"), Get(file, id + "_" + "context_window"),
                            Variable(w, "AITEAMOS_" + SPELLED[id] + "_CONTEXT_WINDOW"), JInt(t.window)];
            LimitFrom(w, windows, t.window, 1024, t.window, ContextWindow(w, id, own, file, t))
  {
    hide EnvPrefix, NormalizeInt, Truthy, SPELLED, LimitFrom, FirstGiven, NoneGiven, Layered;
    SpelledAs(id);
    var env := EnvValue(w, id, "_CONTEXT_WINDOW");
    LayeredFirst(own, file, id, "context_window", env, JInt(t.window));
    LimitRead(w, [Get(own, "context_window"), Get(file, id + "_" + "context_window"), env, JInt(t.window)],
              Layered(own, file, id, "context_window", env, JInt(t.window)), t.window, 1024, t.window);
  }

  lemma OutputLoaded(w: World, id: string, own: Object, file: Object, t: Tokens)
    requires id in ENGINE_IDS && id in SPELLED && t.maxOutput >= 64
    ensures var limits := [Get(own, "max_tokens"), Get(file, id + "_" + "max_tokens"),
                           Variable(w, "AITEAMOS_" + SPELLED[id] + "_MAX_OUTPUT_TOKENS"),
                           Variable(w, "AITEAMOS_" + SPELLED[id] + "_MAX_TOKENS"), JInt(t.maxTokens)];
            var window := ContextWindow(w, id, own, file, t);
            exists n :: LimitFrom(w, limits, t.maxTokens, 64, t.maxOutput, n)
                        && MaxTokens(w, id, own, file, t) == if n < window then n else window
  {
    hide EnvPrefix, NormalizeInt, Truthy, SPELLED, LimitFrom, FirstGiven, NoneGiven, Layered, ContextWindow, Or;
    SpelledAs(id);
    var first, second := EnvValue(w, id, "_MAX_OUTPUT_TOKENS"), EnvValue(w, id, "_MAX_TOKENS");
    var a, b := Get(own, "max_tokens"), Get(file, id + "_" + "max_tokens");
    var asked := Layered(own, file, id, "max_tokens", Or(first, second), JInt(t.maxTokens));
    LayeredFirst(own, file, id, "max_tokens", Or(first, second), JInt(t.maxTokens));
    TwoVariables(a, b, first, second, JInt(t.maxTokens), asked);
    LimitRead(w, [a, b, first, second, JInt(t.maxTokens)], asked, t.maxTokens, 64, t.maxOutput);
    var n := NormalizeInt(w, asked, t.maxTokens, 64, t.maxOutput);
    assert first == Variable(w, "AITEAMOS_" + SPELLED[id] + "_MAX_OUTPUT_TOKENS");
    assert second == Variable(w, "AITEAMOS_" + SPELLED[id] + "_MAX_TOKENS");
    assert LimitFrom(w, [a, b, first, second, JInt(t.maxTokens)], t.maxTokens, 64, t.maxOutput, n);
    assert MaxTokens(w, id, own, file, t) == Min(n, ContextWindow(w, id, own, file, t));
  }

  lemma GivenAt(layers: seq<Json>, k: nat, v: Json)
    requires k < |layers| <= 5 && layers[k] == v && Truthy(v)
    requires (k > 0 ==> !Truthy(layers[0])) && (k > 1 ==> !Truthy(layers[1])) && (k > 2 ==> !Truthy(layers[2]))
    requires k > 3 ==> !Truthy(layers[3])
    ensures FirstGiven(layers, v)
  {
    hide Truthy;
  }

  /** Two variables that stand for one layer. */
  lemma TwoVariables(a: Json, b: Json, x: Json, y: Json, d: Json, v: Json)
    ensures FirstGiven([a, b, Or(x, y), d], v) ==> FirstGiven([a, b, x, y, d], v)
    ensures NoneGiven([a, b, Or(x, y), d]) ==> NoneGiven([a, b, x, y, d])
  {
    hide Truthy;
    var short, long := [a, b, Or(x, y), d], [a, b, x, y, d];
    if i :| 0 <= i < 4 && short[i] == v && Truthy(v) && forall j :: 0 <= j < i ==> !Truthy(short[j]) {
      assert (i > 0 ==> !Truthy(short[0])) && (i > 1 ==> !Truthy(short[1])) && (i > 2 ==> !Truthy(short[2]));
      var k := if i < 2 then i else if i == 2 then (if Truthy(x) then 2 else 3) else 4;
      GivenAt(long, k, v);
    }
    if NoneGiven(short) {
      assert !Truthy(short[0]) && !Truthy(short[1]) && !Truthy(short[2]) && !Truthy(short[3]);
      assert !Truthy(x) && !Truthy(y);
    }
  }

  // ---- words ----

  /** Which words mean what; everything else means the last of each list. */
  lemma WordsOfThinking(v: string)
    ensures NormalizeThinking(v) == "enabled" <==> v == "" || Lower(Strip(v)) in {"1", "true", "yes", "on", "enabled"}
    ensures NormalizeThinking(v) != "enabled" ==> NormalizeThinking(v) == "disabled"
  {
    hide Strip, Lower;
    SettingWords("enabled");
  }

  lemma WordsOfEffort(v: string)
    ensures var word := Lower(Strip(v));
            && (NormalizeEffort(v) == "none" <==> word in {"0", "off", "disabled", "none"})
            && (NormalizeEffort(v) == "low" <==> word in {"fast", "quick", "low"})
            && (NormalizeEffort(v) == "high" <==> word in {"hard", "high"})
            && (NormalizeEffort(v) == "xhigh" <==> word in {"deep", "x-high", "xhigh"})
            && (NormalizeEffort(v) !in {"none", "low", "high", "xhigh"} ==> NormalizeEffort(v) == "medium")
  {
    EmptyText();
    hide Strip, Lower;
    SettingWords("medium");
  }

  lemma EmptyText()
    ensures Lower(Strip("")) == ""
  {
    StripFacts("");
  }

  lemma WordsOfSpeed(v: string)
    ensures var word := Lower(Strip(v));
            && (NormalizeSpeed(v) == "priority" <==> word in {"fast", "priority"})
            && (NormalizeSpeed(v) == "flex" <==> word in {"slow", "cheap", "cost", "flex"})
            && (NormalizeSpeed(v) !in {"priority", "flex"} ==> NormalizeSpeed(v) == "standard")
  {
    EmptyText();
    hide Strip, Lower;
    SettingWords("standard");
  }

  /** Four words name the file stub, each other supported engine has its own name, every other name is DeepSeek's. */
  lemma WordsOfEngine(v: string)
    ensures var word := Lower(Strip(v));
            && (NormalizeEngine(v) == "stub" <==> word in {"stub", "fallback", "file_stub", "file-stub"})
            && (word in {"openai", "claude-code", "cursor", "openhands", "opencode"} ==> NormalizeEngine(v) == word)
            && (NormalizeEngine(v) in {"openai", "claude-code", "cursor", "openhands", "opencode"} ==> NormalizeEngine(v) == word)
            && (NormalizeEngine(v) !in {"stub", "openai", "claude-code", "cursor", "openhands", "opencode"} ==>
                  NormalizeEngine(v) == "deepseek")
  {
    EmptyText();
    hide Strip, Lower, Word;
    SupportedWord("deepseek");
    WordNormal("deepseek");
  }

  /** A flag: a boolean is itself, a missing one is the default, eight words are told, and any other value is true
      exactly when Python takes it for true. */
  lemma WordsOfFlag(j: Json, default: bool)
    ensures NormalizeBool(j, default) <==>
              match j
              case JBool(b) => b
              case JNull => default
              case JStr(s) => s != "" && Lower(Strip(s)) !in {"0", "false", "no", "off"}
              case JInt(i) => i != 0
              case JReal(r) => r != 0.0
              case JArr(items) => |items| > 0
              case JObj(fields) => |fields| > 0
  {
    EmptyText();
    hide Strip, Lower;
  }

  // ---- the active engine ----

  /** The environment holds something under the name the engine gives, or else under the catalog's. */
  ghost predicate KeySet(w: World, id: string, engine: Object) {
    exists name ::
      && name in w.env && w.env[name] != "" && name != ""
      && name == (if Truthy(Get(engine, "api_key_env")) then Show(w, Get(engine, "api_key_env")) else Catalog(id).apiKeyEnv)
  }

  /** The active engine is the one the file names or, when it names none, the environment; a name of nothing but blanks
      counts as none. Without a name it is OpenAI exactly when that is enabled and DeepSeek is not, or only OpenAI has
      its key; otherwise DeepSeek. */
  lemma LoadedActive(w: World, file: Object, v: Json)
    ensures var named := [Get(file, "active_engine"), Variable(w, "AITEAMOS_AI_ENGINE")];
            var active := Load(w, file).activeEngine;
            var d, o := EngineConfig(w, "deepseek", file), EngineConfig(w, "openai", file);
            var usesOpenai := o["enabled"] == JBool(true) &&
                              (d["enabled"] == JBool(false) || (KeySet(w, "openai", o) && !KeySet(w, "deepseek", d)));
            && (FirstGiven(named, v) && Strip(Show(w, v)) != "" ==> active == NormalizeEngine(Show(w, v)))
            && ((FirstGiven(named, v) && Strip(Show(w, v)) == "") || NoneGiven(named) ==>
                  active == if usesOpenai then "openai" else "deepseek")
  {
    hide EngineConfig, NormalizeEngine, NormalizeThinking, Strip, Fallback, Catalog;
    var fromEnv := Variable(w, "AITEAMOS_AI_ENGINE");
    var d, o := EngineConfig(w, "deepseek", file), EngineConfig(w, "openai", file);
    EnabledLoaded(w, "deepseek", file);
    EnabledLoaded(w, "openai", file);
    KeySetExactly(w, "deepseek", d);
    KeySetExactly(w, "openai", o);
    var named := [Get(file, "active_engine"), fromEnv];
    OrFirst(Get(file, "active_engine"), fromEnv, v);
    hide Truthy;
    assert Load(w, file).activeEngine == ActiveEngine(w, file);
  }

  lemma OrFirst(a: Json, b: Json, v: Json)
    ensures FirstGiven([a, b], v) ==> v == Or(a, b) && Truthy(v)
    ensures NoneGiven([a, b]) ==> !Truthy(Or(a, b))
  {
    hide Truthy;
    var layers := [a, b];
    if i :| 0 <= i < |layers| && layers[i] == v && Truthy(v) && forall j :: 0 <= j < i ==> !Truthy(layers[j]) {
      assert i == 1 ==> !Truthy(layers[0]);
    }
    if NoneGiven(layers) {
      assert !Truthy(layers[0]) && !Truthy(layers[1]);
    }
  }

  lemma EnabledLoaded(w: World, id: string, file: Object)
    ensures var c := EngineConfig(w, id, file);
            "enabled" in c && c["enabled"].JBool? && (Enabled(c) <==> c["enabled"] == JBool(true))
  {
    hide Catalog, EngineFile, TextSetting, ContextWindow, MaxTokens, NormalizeBool, Thinking, Speed, EnvValue;
  }

  lemma KeySetExactly(w: World, id: string, engine: Object)
    ensures ApiKeyConfigured(w, id, engine) <==> KeySet(w, id, engine)
  {
    hide Catalog;
    var declared := Get(engine, "api_key_env");
    if Truthy(declared) {
      ShowNonEmpty(w, declared);
    }
  }

  /** The fallback flag is the file's, if the file has one at all; otherwise it is on unless the environment says
      something else than "1", "true", "yes" or "on". */
  lemma LoadedFallback(w: World, file: Object)
    ensures var name := "AITEAMOS_AI_ENGINE_FALLBACK_ON_ERROR";
            Load(w, file).fallback <==>
              if "fallback_on_error" in file then NormalizeBool(file["fallback_on_error"], true)
              else name !in w.env || Lower(w.env[name]) in {"1", "true", "yes", "on"}
  {
    hide Configs, ActiveEngine, EngineConfig, NormalizeThinking;
    assert Word("1");
    WordNormal("1");
    hide Lower;
  }

  /** The top-level fields of a load repeat what the DeepSeek and OpenAI engines say. */
  lemma LoadedNames(w: World, file: Object)
    ensures var l := Load(w, file);
            && l.engines.Keys == ENGINE_IDS && (forall id :: id in ENGINE_IDS ==> l.engines[id] == EngineConfig(w, id, file))
            && Get(l.engines["deepseek"], "model") == JStr(l.deepseekModel)
            && Get(l.engines["deepseek"], "thinking") == JStr(l.deepseekThinking)
            && Get(l.engines["openai"], "model") == JStr(l.openaiModel)
  {
    hide EngineConfig, ActiveEngine, Fallback, NormalizeThinking;
    LoadedFields(w, file);
  }

  lemma FreshText(w: World, id: string, key: string, default: string)
    ensures TextSetting(w, map[], map[], id, key, JNull, default) == default
  {
  }

  /** An engine with nothing set: the catalog's defaults, enabled. */
  lemma FreshEngine(w: World, id: string)
    requires w.env == map[]
    ensures var c, d := EngineConfig(w, id, map[]), Catalog(id);
            && Get(c, "model") == JStr(d.model) && Get(c, "thinking") == JStr(Thinking(id, d.thinking))
            && Get(c, "speed") == JStr(Speed(id, d.speed)) && Get(c, "base_url") == JStr(d.baseUrl)
            && Get(c, "api_key_env") == JStr(d.apiKeyEnv) && Get(c, "enabled") == JBool(true) && "enabled" in c
            && (d.tokens.Some? ==>
                  && Get(c, "context_window") == JInt(d.tokens.value.window)
                  && Get(c, "max_tokens") == JInt(d.tokens.value.maxTokens))
  {
    hide Catalog, TextSetting, Computed, NormalizeThinking, NormalizeEffort, NormalizeSpeed, EnvPrefix;
    var d := Catalog(id);
    assert EngineFile(id, map[]) == map[];
    ComputedGets(w, id, map[], map[]);
    FreshText(w, id, "model", d.model);
    FreshText(w, id, "thinking", d.thinking);
    FreshText(w, id, "speed", d.speed);
    FreshText(w, id, "base_url", d.baseUrl);
    FreshText(w, id, "api_key_env", d.apiKeyEnv);
    if d.tokens.Some? {
      TokensOk(id);
      FreshTokens(id);
    }
  }

  lemma FreshTokens(id: string)
    requires Catalog(id).tokens.Some?
    ensures var t := Catalog(id).tokens.value; 64 <= t.maxTokens <= t.maxOutput && t.maxTokens <= t.window
  {
  }

  /** The two remote engines with nothing set. */
  ghost predicate RemoteDefaults(d: Object, o: Object) {
    && Get(d, "model") == JStr("deepseek-v4-flash") && Get(d, "thinking") == JStr("enabled")
    && Get(d, "base_url") == JStr("https://api.deepseek.com") && Get(d, "api_key_env") == JStr("DEEPSEEK_API_KEY")
    && Get(d, "context_window") == JInt(1000000) && Get(d, "max_tokens") == JInt(384000)
    && Get(o, "model") == JStr("gpt-5.5") && Get(o, "thinking") == JStr("medium") && Get(o, "speed") == JStr("standard")
    && Get(o, "base_url") == JStr("https://api.openai.com/v1") && Get(o, "api_key_env") == JStr("OPENAI_API_KEY")
    && Get(o, "context_window") == JInt(1050000) && Get(o, "max_tokens") == JInt(4096)
  }

  lemma FreshRemote(w: World)
    requires w.env == map[]
    ensures RemoteDefaults(EngineConfig(w, "deepseek", map[]), EngineConfig(w, "openai", map[]))
  {
    hide EngineConfig, Thinking, Speed;
    FreshEngine(w, "deepseek");
    FreshEngine(w, "openai");
    FreshWords();
  }

  /** What a workspace without a settings file starts with, in an environment that sets nothing. */
  lemma FreshInstall(w: World)
    requires w.env == map[]
    ensures var l := Load(w, map[]);
            && l.activeEngine == "deepseek" && l.fallback && "deepseek" in l.engines && "openai" in l.engines
            && RemoteDefaults(l.engines["deepseek"], l.engines["openai"])
  {
    hide *;
    FreshRemote(w);
    FreshFlags(w);
    LoadedNames(w, map[]);
    IdsListed();
  }

  lemma IdsListed()
    ensures "deepseek" in ENGINE_IDS && "openai" in ENGINE_IDS
  {
  }

  lemma FreshFlags(w: World)
    requires w.env == map[]
    ensures Load(w, map[]).activeEngine == "deepseek" && Load(w, map[]).fallback
  {
    hide EngineConfig, Load, Fallback, NormalizeEngine, KeySet, Truthy, FirstGiven;
    var named := [Get(map[], "active_engine"), Variable(w, "AITEAMOS_AI_ENGINE")];
    assert named[0] == JNull && named[1] == JNull;
    NullsNotGiven(named);
    FreshEnabled(w);
    FreshKeys(w);
    LoadedFallback(w, map[]);
    LoadedActive(w, map[], JNull);
  }

  lemma FreshKeys(w: World)
    requires w.env == map[]
    ensures forall id, engine :: !KeySet(w, id, engine)
  {
  }

  lemma FreshEnabled(w: World)
    requires w.env == map[]
    ensures var d := EngineConfig(w, "deepseek", map[]); "enabled" in d && d["enabled"] == JBool(true)
  {
    hide EngineConfig, Catalog;
    FreshEngine(w, "deepseek");
    assert Get(EngineConfig(w, "deepseek", map[]), "enabled") == JBool(true);
  }

  lemma NullsNotGiven(layers: seq<Json>)
    requires forall i :: 0 <= i < |layers| ==> layers[i] == JNull
    ensures NoneGiven(layers)
  {
  }

  lemma FreshWords()
    ensures Thinking("deepseek", "enabled") == "enabled" && Thinking("openai", "medium") == "medium"
    ensures Speed("openai", "standard") == "standard"
  {
    hide Strip, Lower;
    SettingWords("enabled");
    SettingWords("medium");
    SettingWords("standard");
  }

  /** The two coding tools that need a key ask for it under their own names. */
  lemma ToolKeys(w: World)
    requires w.env == map[]
    ensures Get(EngineConfig(w, "cursor", map[]), "api_key_env") == JStr("CURSOR_API_KEY")
    ensures Get(EngineConfig(w, "openhands", map[]), "api_key_env") == JStr("OPENHANDS_API_TOKEN")
  {
    hide EngineConfig, Thinking, Speed;
    FreshEngine(w, "cursor");
    FreshEngine(w, "openhands");
  }

  // ---- what is saved ----

  const SAVED_KEYS := {"model", "thinking", "speed", "context_window", "max_tokens", "base_url", "api_key_env", "enabled",
                       "command", "workspace", "profile"}

  /** What is there to save: the engine's data, with the top-level DeepSeek and OpenAI fields in its place where they say
      the same thing. */
  function ToSave(config: Config, id: string, key: string): Json {
    if id == "deepseek" && key == "model" then
      JStr(if config.deepseekModel != "" then config.deepseekModel else "deepseek-v4-flash")
    else if id == "deepseek" && key == "thinking" then
      JStr(NormalizeThinking(if config.deepseekThinking != "" then config.deepseekThinking else "enabled"))
    else if id == "openai" && key == "model" then JStr(if config.openaiModel != "" then config.openaiModel else "gpt-5.5")
    else if id in config.engines then Get(config.engines[id], key)
    else JNull
  }

  /** A saved file names the active engine, the flag and the time, and of each supported engine exactly the eleven keys that
      hold something. */
  lemma SavedExactly(config: Config, updatedAt: string, id: string, key: string, v: Json)
    ensures var file := Payload(config, updatedAt);
            && file.Keys == {"active_engine", "fallback_on_error", "engines", "updated_at"}
            && file["active_engine"] == JStr(NormalizeEngine(config.activeEngine))
            && file["fallback_on_error"] == JBool(config.fallback) && file["updated_at"] == JStr(updatedAt)
            && (OwnEntry(file, id, key, v) <==>
                  && id in {"stub", "deepseek", "openai", "claude-code", "cursor", "openhands", "opencode"} && key in SAVED_KEYS
                  && v == ToSave(config, id, key) && v != JNull && v != JStr(""))
  {
    hide NormalizeEngine, NormalizeThinking, Persisted, Merged, ToSave, SAVED_KEYS, PERSISTED_KEYS;
    var file := Payload(config, updatedAt);
    assert file["engines"] == JObj(PersistedEngines(config));
    MergedSays(config, id, key);
    PersistedSays(Merged(config, id), key);
    if id in SUPPORTED {
      SomethingPersisted(Merged(config, id), key);
    }
  }

  lemma MergedSays(config: Config, id: string, key: string)
    ensures Get(Merged(config, id), key) == ToSave(config, id, key)
  {
    hide NormalizeThinking;
  }

  lemma PersistedSays(data: Object, key: string)
    ensures key in Persisted(data) <==> key in SAVED_KEYS && Get(data, key) != JNull && Get(data, key) != JStr("")
    ensures key in Persisted(data) ==> Persisted(data)[key] == Get(data, key)
  {
    assert key in PERSISTED_KEYS <==> key in SAVED_KEYS;
    hide PERSISTED_KEYS, SAVED_KEYS;
  }

  lemma SomethingPersisted(data: Object, key: string)
    ensures key in Persisted(data) ==> Persisted(data) != map[]
  {
    hide Persisted;
  }
}
