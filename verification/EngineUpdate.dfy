/** Editing one AI Engine: load, edit its data field by field, save. */
module EngineUpdate {
  import opened Text
  import opened Json
  import opened Keyed
  import opened Numbers
  import opened EngineSettings
  import opened EngineRoundTrip

  datatype UpdateRequest = UpdateRequest(
    model: Option<string>, thinking: Option<string>, speed: Option<string>, contextWindow: Option<int>,
    maxTokens: Option<int>, baseUrl: Option<string>, apiKeyEnv: Option<string>, enabled: Option<bool>, activate: bool)

  // ---- the edit ----

  /** A text field: the stripped request, or the catalog default when it is blank. */
  function WithText(c: Object, key: string, asked: Option<string>, default: string): Object {
    if asked.None? then c else c[key := JStr(OrElse(Strip(asked.value), default))]
  }

  function WithThinking(id: string, c: Object, asked: Option<string>): Object {
    if asked.Some? && id == "deepseek" then c["thinking" := JStr(NormalizeThinking(asked.value))]
    else if asked.Some? && id == "openai" then c["thinking" := JStr(NormalizeEffort(asked.value))]
    else c
  }

  function WithSpeed(id: string, c: Object, asked: Option<string>): Object {
    if asked.Some? && id == "openai" then c["speed" := JStr(NormalizeSpeed(asked.value))] else c
  }

  /** `int(data[key] or default)`; the key holds an integer here, as every load leaves one. */
  function IntField(w: World, c: Object, key: string, default: int): int {
    var parsed := ParseInt(w, Or(Get(c, key), JInt(default)));
    if parsed.Some? then parsed.value else default
  }

  function WithWindow(c: Object, asked: Option<int>, t: Tokens): Object {
    if asked.None? then c else c["context_window" := JInt(Clamp(asked.value, 1024, t.window))]
  }

  function WithTokens(w: World, c: Object, asked: Option<int>, t: Tokens): Object {
    if asked.None? then c else
      c["max_tokens" := JInt(Min(Clamp(asked.value, 64, t.maxOutput), IntField(w, c, "context_window", t.window)))]
  }

  /** The last step of the edit re-establishes the limits. */
  function Limited(w: World, c: Object, t: Tokens): Object {
    var window := NormalizeInt(w, Get(c, "context_window"), t.window, 1024, t.window);
    var d := c["context_window" := JInt(window)];
    d["max_tokens" := JInt(Min(NormalizeInt(w, Get(d, "max_tokens"), t.maxTokens, 64, t.maxOutput), window))]
  }

  function EditedTexts(id: string, c: Object, req: UpdateRequest): Object {
    WithSpeed(id, WithThinking(id, WithText(c, "model", req.model, Catalog(id).model), req.thinking), req.speed)
  }

  function EditedTokens(w: World, id: string, c: Object, req: UpdateRequest): Object {
    var t := Catalog(id).tokens;
    if t.None? then c else WithTokens(w, WithWindow(c, req.contextWindow, t.value), req.maxTokens, t.value)
  }

  function EditedAccess(id: string, c: Object, req: UpdateRequest): Object {
    var d := WithText(WithText(c, "base_url", req.baseUrl, Catalog(id).baseUrl), "api_key_env", req.apiKeyEnv, Catalog(id).apiKeyEnv);
    if req.enabled.None? then d else d["enabled" := JBool(req.enabled.value)]
  }

  function Edited(w: World, id: string, c: Object, req: UpdateRequest): Object {
    var d := EditedAccess(id, EditedTokens(w, id, EditedTexts(id, c, req), req), req);
    if Catalog(id).tokens.None? then d else Limited(w, d, Catalog(id).tokens.value)
  }

  /** The configuration that is saved. */
  function NextConfig(w: World, l: Config, id: string, req: UpdateRequest): Config {
    var data := Edited(w, id, EngineOf(l, id), req);
    Config(if req.activate then id else l.activeEngine,
           if id == "deepseek" then TextField(w, data, "model", "deepseek-v4-flash") else l.deepseekModel,
           if id == "deepseek" then NormalizeThinking(TextField(w, data, "thinking", "enabled")) else l.deepseekThinking,
           if id == "openai" then TextField(w, data, "model", "gpt-5.5") else l.openaiModel,
           l.fallback, l.engines[id := data])
  }

  function Updated(w: World, file: Object, engineId: string, req: UpdateRequest, now: string): Object {
    Payload(NextConfig(w, Load(w, file), NormalizeEngine(engineId), req), now)
  }

  method AskTexts(id: string, data: Object, req: UpdateRequest) returns (engine: Object)
    ensures engine == EditedTexts(id, data, req)
  {
    hide Catalog, NormalizeThinking, NormalizeEffort, NormalizeSpeed, Strip;
    engine := data;
    if req.model.Some? {
      engine := engine["model" := JStr(OrElse(Strip(req.model.value), Catalog(id).model))];
    }
    if req.thinking.Some? {
      if id == "deepseek" {
        engine := engine["thinking" := JStr(NormalizeThinking(req.thinking.value))];
      } else if id == "openai" {
        engine := engine["thinking" := JStr(NormalizeEffort(req.thinking.value))];
      }
    }
    if req.speed.Some? && id == "openai" {
      engine := engine["speed" := JStr(NormalizeSpeed(req.speed.value))];
    }
  }

  /** The requested limits, field by field: where the limits were in range, the context window is the requested one cut
      to the catalog's range, and a requested output limit is cut to the catalog's range and to that window; every other
      field stays. */
  method AskTokens(w: World, id: string, data: Object, req: UpdateRequest) returns (engine: Object)
    ensures engine == EditedTokens(w, id, data, req)
    ensures forall k :: k != "context_window" && k != "max_tokens" ==> Get(engine, k) == Get(data, k)
    ensures Catalog(id).tokens.None? ==> engine == data
    ensures Catalog(id).tokens.Some? && TokensInRange(data, Catalog(id).tokens.value) ==>
              TokensAsAsked(data, engine, req, Catalog(id).tokens.value)
  {
    hide Catalog, IntField;
    engine := data;
    var tokens := Catalog(id).tokens;
    if req.contextWindow.Some? && tokens.Some? {
      engine := engine["context_window" := JInt(Clamp(req.contextWindow.value, 1024, tokens.value.window))];
    }
    if req.maxTokens.Some? && tokens.Some? {
      var window := IntField(w, engine, "context_window", tokens.value.window);
      engine := engine["max_tokens" := JInt(Min(Clamp(req.maxTokens.value, 64, tokens.value.maxOutput), window))];
    }
    TokensFrame(w, id, data, req);
    if tokens.Some? && TokensInRange(data, tokens.value) {
      TokensOk(id);
      EditedTokensGet(w, id, data, req, tokens.value);
    }
  }

  method AskAccess(id: string, data: Object, req: UpdateRequest) returns (engine: Object)
    ensures engine == EditedAccess(id, data, req)
  {
    hide Catalog, Strip;
    engine := data;
    if req.baseUrl.Some? {
      engine := engine["base_url" := JStr(OrElse(Strip(req.baseUrl.value), Catalog(id).baseUrl))];
    }
    if req.apiKeyEnv.Some? {
      engine := engine["api_key_env" := JStr(OrElse(Strip(req.apiKeyEnv.value), Catalog(id).apiKeyEnv))];
    }
    if req.enabled.Some? {
      engine := engine["enabled" := JBool(req.enabled.value)];
    }
  }

  class SettingsService {
    const w: World
    const catalog: seq<string>
    var file: Object

    constructor (w: World, catalog: seq<string>, file: Object)
      ensures this.w == w && this.catalog == catalog && this.file == file
    {
      this.w, this.catalog, this.file := w, catalog, file;
    }

    /** Edits copies of the loaded settings field by field, then writes the settings file. */
    method UpdateEngine(engineId: string, req: UpdateRequest, now: string)
      requires forall id :: id in SUPPORTED ==> id in catalog
      modifies this`file
      ensures file == Updated(w, old(file), engineId, req, now)
    {
      hide Load, Payload, Catalog, NormalizeEngine, NormalizeThinking, TextField, Limited, EditedTexts, EditedTokens,
           EditedAccess, EngineOf;
      var id := NormalizeEngine(engineId);
      var next := Load(w, file);
      ghost var loaded := next;
      var engine := EngineOf(next, id);
      if req.activate {
        next := next.(activeEngine := id);
      }
      engine := AskTexts(id, engine, req);
      engine := AskTokens(w, id, engine, req);
      engine := AskAccess(id, engine, req);
      var tokens := Catalog(id).tokens;
      if tokens.Some? {
        engine := Limited(w, engine, tokens.value);
      }
      assert engine == Edited(w, id, EngineOf(loaded, id), req);
      next := next.(engines := next.engines[id := engine]);
      if id == "deepseek" {
        next := next.(deepseekModel := TextField(w, engine, "model", "deepseek-v4-flash"),
                      deepseekThinking := NormalizeThinking(TextField(w, engine, "thinking", "enabled")));
      } else if id == "openai" {
        next := next.(openaiModel := TextField(w, engine, "model", "gpt-5.5"));
      }
      assert next == NextConfig(w, loaded, id, req);
      file := FilePayload(next, catalog, now);
    }
  }

  // ---- what the edit leaves canonical ----

  /** The value of a text field after the edit. */
  function AskedText(c: Object, key: string, asked: Option<string>, default: string): string
    requires Get(c, key).JStr?
  {
    if asked.Some? then OrElse(Strip(asked.value), default) else Get(c, key).s
  }

  function AskedThinking(id: string, c: Object, req: UpdateRequest): string
    requires Get(c, "thinking").JStr?
  {
    if req.thinking.Some? && (id == "deepseek" || id == "openai") then Thinking(id, req.thinking.value) else Get(c, "thinking").s
  }

  function AskedSpeed(id: string, c: Object, req: UpdateRequest): string
    requires Get(c, "speed").JStr?
  {
    if req.speed.Some? && id == "openai" then NormalizeSpeed(req.speed.value) else Get(c, "speed").s
  }

  function AskedWindow(c: Object, req: UpdateRequest, t: Tokens): int
    requires Get(c, "context_window").JInt?
  {
    if req.contextWindow.Some? then Clamp(req.contextWindow.value, 1024, t.window) else Get(c, "context_window").i
  }

  /** The requested limit, or else the current one, cut to the catalog's range and to the context window. */
  function AskedTokens(c: Object, req: UpdateRequest, t: Tokens): int
    requires Get(c, "context_window").JInt? && Get(c, "max_tokens").JInt?
  {
    Min(Clamp(if req.maxTokens.Some? then req.maxTokens.value else Get(c, "max_tokens").i, 64, t.maxOutput),
          AskedWindow(c, req, t))
  }

  /** The texts and the flag of the edited data are what was asked for, or what they were. */
  ghost predicate TextsAsAsked(id: string, c: Object, d: Object, req: UpdateRequest)
    requires Get(c, "model").JStr? && Get(c, "thinking").JStr? && Get(c, "speed").JStr?
    requires Get(c, "base_url").JStr? && Get(c, "api_key_env").JStr?
  {
    && Get(d, "model") == JStr(AskedText(c, "model", req.model, Catalog(id).model))
    && Get(d, "thinking") == JStr(AskedThinking(id, c, req))
    && Get(d, "speed") == JStr(AskedSpeed(id, c, req))
    && Get(d, "base_url") == JStr(AskedText(c, "base_url", req.baseUrl, Catalog(id).baseUrl))
    && Get(d, "api_key_env") == JStr(AskedText(c, "api_key_env", req.apiKeyEnv, Catalog(id).apiKeyEnv))
    && Get(d, "enabled") == (if req.enabled.Some? then JBool(req.enabled.value) else Get(c, "enabled"))
  }

  lemma TextsGets(id: string, c: Object, req: UpdateRequest)
    requires Get(c, "model").JStr? && Get(c, "thinking").JStr? && Get(c, "speed").JStr?
    ensures var d := EditedTexts(id, c, req);
            && Get(d, "model") == JStr(AskedText(c, "model", req.model, Catalog(id).model))
            && Get(d, "thinking") == JStr(AskedThinking(id, c, req))
            && Get(d, "speed") == JStr(AskedSpeed(id, c, req))
            && forall k :: k != "model" && k != "thinking" && k != "speed" ==> Get(d, k) == Get(c, k)
  {
    hide Catalog, NormalizeThinking, NormalizeEffort, NormalizeSpeed, Strip;
  }

  lemma TokensFrame(w: World, id: string, c: Object, req: UpdateRequest)
    ensures forall k :: k != "context_window" && k != "max_tokens" ==> Get(EditedTokens(w, id, c, req), k) == Get(c, k)
  {
    hide Catalog, Clamp, IntField;
  }

  lemma AccessGets(id: string, c: Object, req: UpdateRequest)
    requires Get(c, "base_url").JStr? && Get(c, "api_key_env").JStr?
    ensures var d := EditedAccess(id, c, req);
            && Get(d, "base_url") == JStr(AskedText(c, "base_url", req.baseUrl, Catalog(id).baseUrl))
            && Get(d, "api_key_env") == JStr(AskedText(c, "api_key_env", req.apiKeyEnv, Catalog(id).apiKeyEnv))
            && Get(d, "enabled") == (if req.enabled.Some? then JBool(req.enabled.value) else Get(c, "enabled"))
            && forall k :: k != "base_url" && k != "api_key_env" && k != "enabled" ==> Get(d, k) == Get(c, k)
  {
    hide Catalog, Strip;
  }

  lemma LimitedFrame(w: World, c: Object, t: Tokens)
    ensures forall k :: k != "context_window" && k != "max_tokens" ==> Get(Limited(w, c, t), k) == Get(c, k)
  {
    hide NormalizeInt;
  }

  lemma EditedGets(w: World, id: string, c: Object, req: UpdateRequest)
    requires Canonical(w, id, c)
    ensures TextsAsAsked(id, c, Edited(w, id, c, req), req)
  {
    CanonicalTexts(w, id, c);
    hide Canonical, Catalog, EditedTexts, EditedTokens, EditedAccess, Limited, AskedText, AskedThinking, AskedSpeed, Strip;
    var e := EditedTexts(id, c, req);
    var f := EditedTokens(w, id, e, req);
    var g := EditedAccess(id, f, req);
    TextsGets(id, c, req);
    TokensFrame(w, id, e, req);
    AccessGets(id, f, req);
    SameAsked(id, c, f, req);
    if Catalog(id).tokens.Some? {
      LimitedFrame(w, g, Catalog(id).tokens.value);
    }
  }

  /** What is asked of a field depends on that field only. */
  lemma SameAsked(id: string, c: Object, d: Object, req: UpdateRequest)
    requires Get(c, "base_url").JStr? && Get(c, "api_key_env").JStr?
    requires Get(d, "base_url") == Get(c, "base_url") && Get(d, "api_key_env") == Get(c, "api_key_env")
    ensures AskedText(d, "base_url", req.baseUrl, Catalog(id).baseUrl) == AskedText(c, "base_url", req.baseUrl, Catalog(id).baseUrl)
    ensures AskedText(d, "api_key_env", req.apiKeyEnv, Catalog(id).apiKeyEnv)
         == AskedText(c, "api_key_env", req.apiKeyEnv, Catalog(id).apiKeyEnv)
  {
    hide Catalog, Strip;
  }

  lemma EditedLimits(w: World, id: string, c: Object, req: UpdateRequest)
    requires Canonical(w, id, c) && Catalog(id).tokens.Some?
    ensures var d := Edited(w, id, c, req);
            var t := Catalog(id).tokens.value;
            && Get(d, "context_window") == JInt(AskedWindow(c, req, t))
            && Get(d, "max_tokens") == JInt(AskedTokens(c, req, t))
            && 1024 <= AskedWindow(c, req, t) <= t.window
            && 64 <= AskedTokens(c, req, t) <= AskedWindow(c, req, t) && AskedTokens(c, req, t) <= t.maxOutput
  {
    hide Catalog, NormalizeThinking, NormalizeEffort, NormalizeSpeed, Strip, Thinking, Speed, EditedTexts, EditedTokens,
         EditedAccess;
    TokensOk(id);
    var t := Catalog(id).tokens.value;
    var texts := EditedTexts(id, c, req);
    TextsGets(id, c, req);
    EditedTokensGet(w, id, texts, req, t);
    TokensFrame(w, id, texts, req);
    AccessGets(id, EditedTokens(w, id, texts, req), req);
  }

  /** Both limits are integers of the catalog's range. */
  predicate TokensInRange(c: Object, t: Tokens) {
    && Get(c, "context_window").JInt? && Get(c, "max_tokens").JInt?
    && 1024 <= Get(c, "context_window").i <= t.window && 64 <= Get(c, "max_tokens").i <= t.maxOutput
  }

  /** The limits after the requested ones were written. */
  predicate TokensAsAsked(c: Object, e: Object, req: UpdateRequest, t: Tokens)
    requires TokensInRange(c, t)
  {
    var window := AskedWindow(c, req, t);
    && Get(e, "context_window") == JInt(window) && 1024 <= window <= t.window
    && (req.maxTokens.None? ==> Get(e, "max_tokens") == Get(c, "max_tokens"))
    && (req.maxTokens.Some? ==>
          var tokens := AskedTokens(c, req, t);
          Get(e, "max_tokens") == JInt(tokens) && 64 <= tokens <= window && tokens <= t.maxOutput)
  }

  lemma EditedTokensGet(w: World, id: string, c: Object, req: UpdateRequest, t: Tokens)
    requires Catalog(id).tokens == Some(t) && 1024 <= t.window && 64 <= t.maxOutput && TokensInRange(c, t)
    ensures TokensAsAsked(c, EditedTokens(w, id, c, req), req, t)
  {
    hide Catalog;
  }

  lemma EditedCanonical(w: World, id: string, c: Object, req: UpdateRequest)
    requires Canonical(w, id, c)
    ensures Canonical(w, id, Edited(w, id, c, req))
  {
    hide Catalog, Edited, NormalizeThinking, NormalizeEffort, NormalizeSpeed, Clamp, Strip, AskedWindow, AskedTokens;
    EditedGets(w, id, c, req);
    if Catalog(id).tokens.Some? {
      EditedLimits(w, id, c, req);
    }
    if req.thinking.Some? {
      ThinkingTwice(req.thinking.value);
      EffortTwice(req.thinking.value);
    }
    if req.speed.Some? {
      SpeedTwice(req.speed.value);
    }
  }

  // ---- what is saved ----

  /** The saved entry of the edited engine is the edited data. */
  lemma MergedEdited(w: World, file: Object, id: string, req: UpdateRequest)
    requires id in SUPPORTED
    ensures var l := Load(w, file);
            Merged(NextConfig(w, l, id, req), id) == Edited(w, id, EngineConfig(w, id, file), req)
  {
    hide Catalog, Load, Edited, EngineConfig, NormalizeThinking, Strip, Canonical, ReadBack, TextsAsAsked, TextField;
    var l := Load(w, file);
    LoadedEngine(w, file, id);
    var d := Edited(w, id, EngineConfig(w, id, file), req);
    EditedNames(w, file, id, req);
    if id == "deepseek" {
      assert Merged(NextConfig(w, l, id, req), id) == d["model" := Get(d, "model")]["thinking" := Get(d, "thinking")];
    } else if id == "openai" {
      assert Merged(NextConfig(w, l, id, req), id) == d["model" := Get(d, "model")];
    }
  }

  /** The top-level fields of the next configuration repeat the edited data. */
  lemma EditedNames(w: World, file: Object, id: string, req: UpdateRequest)
    requires id in SUPPORTED
    ensures var d := Edited(w, id, EngineConfig(w, id, file), req);
            && (id == "deepseek" ==>
                 && "model" in d && "thinking" in d
                 && Get(d, "model") == JStr(OrElse(TextField(w, d, "model", "deepseek-v4-flash"), "deepseek-v4-flash"))
                 && Get(d, "thinking") ==
                      JStr(NormalizeThinking(OrElse(NormalizeThinking(TextField(w, d, "thinking", "enabled")), "enabled"))))
            && (id == "openai" ==>
                 "model" in d && Get(d, "model") == JStr(OrElse(TextField(w, d, "model", "gpt-5.5"), "gpt-5.5")))
  {
    hide Catalog, Edited, EngineConfig, NormalizeThinking, Strip, Canonical, ReadBack;
    var c := EngineConfig(w, id, file);
    LoadedCanonical(w, id, file);
    EditedCanonical(w, id, c, req);
    CanonicalTexts(w, id, c);
    CanonicalTexts(w, id, Edited(w, id, c, req));
    EditedGets(w, id, c, req);
    LoadedFields(w, file);
    NamedDefaults();
    ThinkingTwice(Get(Edited(w, id, c, req), "thinking").s);
  }

  lemma NamedDefaults()
    ensures Catalog("deepseek").model != "" && Catalog("openai").model != ""
  {
  }

  lemma CanonicalTexts(w: World, id: string, c: Object)
    requires Canonical(w, id, c)
    ensures Get(c, "model").JStr? && Get(c, "thinking").JStr? && Get(c, "speed").JStr?
    ensures Get(c, "base_url").JStr? && Get(c, "api_key_env").JStr?
    ensures id == "deepseek" ==>
              NormalizeThinking(Get(c, "thinking").s) == Get(c, "thinking").s && Get(c, "thinking").s != ""
  {
    hide Catalog, NormalizeThinking, NormalizeEffort;
    ThinkingTwice(Get(c, "thinking").s);
  }

  /** Every other engine is saved as it was loaded. */
  lemma MergedOther(w: World, file: Object, id: string, other: string, req: UpdateRequest)
    requires id in SUPPORTED && other in SUPPORTED && other != id
    ensures var l := Load(w, file);
            Merged(NextConfig(w, l, id, req), other) == Merged(l, other) == EngineConfig(w, other, file)
  {
    hide Load, Edited, EngineConfig, NormalizeThinking;
    LoadedEngine(w, file, other);
  }

  /** Each field of the reloaded engine `r` is what was asked for, or what it was in `c`; a text saved as "" is read
      back as what stands behind it. The context window lies between 1024 and the catalog maximum, the output limit
      between 64 and both the catalog maximum and the context window. */
  ghost predicate AsAsked(w: World, id: string, c: Object, r: Object, req: UpdateRequest)
    requires Canonical(w, id, c)
  {
    var d := Catalog(id);
    && Get(r, "model") == JStr(ReadBack(w, id, "model", AskedText(c, "model", req.model, d.model)))
    && Get(r, "thinking") == JStr(ReadBack(w, id, "thinking", AskedThinking(id, c, req)))
    && Get(r, "speed") == JStr(ReadBack(w, id, "speed", AskedSpeed(id, c, req)))
    && Get(r, "base_url") == JStr(ReadBack(w, id, "base_url", AskedText(c, "base_url", req.baseUrl, d.baseUrl)))
    && Get(r, "api_key_env") == JStr(ReadBack(w, id, "api_key_env", AskedText(c, "api_key_env", req.apiKeyEnv, d.apiKeyEnv)))
    && Get(r, "enabled") == (if req.enabled.Some? then JBool(req.enabled.value) else Get(c, "enabled"))
    && (d.tokens.Some? ==>
          var window, tokens := AskedWindow(c, req, d.tokens.value), AskedTokens(c, req, d.tokens.value);
          && Get(r, "context_window") == JInt(window) && Get(r, "max_tokens") == JInt(tokens)
          && 1024 <= window <= d.tokens.value.window
          && 64 <= tokens <= window && tokens <= d.tokens.value.maxOutput)
  }

  lemma EditedReload(w: World, file: Object, id: string, req: UpdateRequest, now: string)
    requires id in SUPPORTED && Canonical(w, id, EngineConfig(w, id, file))
    ensures AsAsked(w, id, EngineConfig(w, id, file),
                    EngineConfig(w, id, Payload(NextConfig(w, Load(w, file), id, req), now)), req)
  {
    hide Catalog, Load, Payload, Edited, EngineConfig, Canonical, ReadBack, Merged, Strip,
         AskedText, AskedThinking, AskedSpeed, AskedWindow, AskedTokens, NextConfig;
    var next := NextConfig(w, Load(w, file), id, req);
    var c := EngineConfig(w, id, file);
    CanonicalTexts(w, id, c);
    EditedCanonical(w, id, c, req);
    MergedEdited(w, file, id, req);
    EngineReload(w, id, next, now);
    EditedGets(w, id, c, req);
    TextKeys();
    if Catalog(id).tokens.Some? {
      EditedLimits(w, id, c, req);
    }
  }

  /** Editing an engine, as seen after a reload: no other supported engine changes, the fallback flag stays, the
      active engine changes only on request, and the edited engine is as asked. */
  lemma UpdateTakesEffect(w: World, file: Object, engineId: string, req: UpdateRequest, now: string)
    ensures var id := NormalizeEngine(engineId);
            var f' := Updated(w, file, engineId, req, now);
            && ActiveEngine(w, f') == (if req.activate then id else ActiveEngine(w, file))
            && Fallback(w, f') == Fallback(w, file)
            && (forall other :: other in SUPPORTED && other != id ==>
                 SameEngine(EngineConfig(w, other, file), EngineConfig(w, other, f')))
            && Canonical(w, id, EngineConfig(w, id, file))
            && AsAsked(w, id, EngineConfig(w, id, file), EngineConfig(w, id, f'), req)
  {
    hide Load, Payload, EngineConfig, NormalizeEngine, Canonical, SameEngine, NextConfig, AsAsked;
    var id := NormalizeEngine(engineId);
    EveryNameResolves(engineId);
    UpdateFlags(w, file, id, req, now);
    forall other | other in SUPPORTED && other != id
      ensures SameEngine(EngineConfig(w, other, file), EngineConfig(w, other, Updated(w, file, engineId, req, now)))
    {
      OtherUnchanged(w, file, id, other, req, now);
    }
    LoadedCanonical(w, id, file);
    EditedReload(w, file, id, req, now);
  }

  lemma TextKeys()
    ensures TextKey("model") && TextKey("thinking") && TextKey("speed") && TextKey("base_url") && TextKey("api_key_env")
  {
  }

  lemma UpdateFlags(w: World, file: Object, id: string, req: UpdateRequest, now: string)
    requires id in SUPPORTED
    ensures var f' := Payload(NextConfig(w, Load(w, file), id, req), now);
            && ActiveEngine(w, f') == (if req.activate then id else ActiveEngine(w, file))
            && Fallback(w, f') == Fallback(w, file)
  {
    hide Load, Payload, ActiveEngine, Fallback, Edited, NormalizeEngine, NormalizeThinking;
    LoadedTop(w, file);
    ActiveSupported(w, file);
    EngineIdsNormal(ActiveEngine(w, file));
    EngineIdsNormal(id);
    SavedFlags(w, NextConfig(w, Load(w, file), id, req), now);
  }

  lemma OtherUnchanged(w: World, file: Object, id: string, other: string, req: UpdateRequest, now: string)
    requires id in SUPPORTED && other in SUPPORTED && other != id
    ensures SameEngine(EngineConfig(w, other, file),
                       EngineConfig(w, other, Payload(NextConfig(w, Load(w, file), id, req), now)))
  {
    hide Load, Payload, EngineConfig, Merged, NextConfig, ReadBack, Worth;
    MergedOther(w, file, id, other, req);
    LoadedCanonical(w, other, file);
    EngineReload(w, other, NextConfig(w, Load(w, file), id, req), now);
    var c := EngineConfig(w, other, file);
    forall k | TextKey(k) ensures k in {"model", "thinking", "speed", "base_url", "api_key_env"} && Get(c, k).JStr? {
    }
  }
}
