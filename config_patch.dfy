/** The one-off patcher that registers the GitHub proxy in an OpenClaw
    configuration: it points the agent defaults at the proxy's model and
    installs the proxy's provider record. The configuration is the decoded
    JSON object; a step where Python raises (a `setdefault` on a value that
    is not a dictionary, an `append` on something that is not a list) makes
    the whole patch fail. */
module ConfigPatch {
  import opened Json
  import opened Text

  type Object = map<string, Json>

  const ProviderName: string := "github-proxy"
  /** `f"{PROVIDER_NAME}/{DEFAULT_MODEL}"`. */
  const PrimaryModel: string := "github-proxy/claude-4.5-opus"
  /** `MODEL_FALLBACK`. */
  const FallbackModel: string := "anthropic/claude-opus-4-5"

  /** `{"alias": name}`. */
  function Alias(name: string): Json {
    JObj(map["alias" := JStr(name)])
  }

  /** The cost block of both models: all four prices zero. */
  const ZeroCost: Json :=
    JObj(map["input" := JNum(0.0), "output" := JNum(0.0), "cacheRead" := JNum(0.0), "cacheWrite" := JNum(0.0)])

  /** One entry of the provider's model list. */
  function ModelEntry(id: string, name: string, contextWindow: real): Json {
    JObj(map[
      "id" := JStr(id),
      "name" := JStr(name),
      "reasoning" := JBool(true),
      "input" := JArr([JStr("text")]),
      "cost" := ZeroCost,
      "contextWindow" := JNum(contextWindow),
      "maxTokens" := JNum(8192.0)])
  }

  /** The record `ensure_provider` installs under `providers["github-proxy"]`. */
  const ProviderRecord: Json :=
    JObj(map[
      "api" := JStr("openai-completions"),
      "baseUrl" := JStr("http://127.0.0.1:8000/v1"),
      "apiKey" := JStr("github-proxy-local"),
      "defaultHeaders" := JObj(map[
        "HTTP-Referer" := JStr("https://openclaw.local"),
        "X-Title" := JStr("GitHub Proxy via OpenClaw")]),
      "models" := JArr([
        ModelEntry("claude-4.5-opus", "Claude 4.5 Opus (GitHub)", 200000.0),
        ModelEntry("gpt-4o", "GPT-4o (GitHub)", 128000.0)])])

  /** `d.setdefault(key, {})` used as a dictionary: the existing value when
      it is one, an empty dictionary when the key is absent, None when the
      existing value is something else (the next dictionary operation on
      it raises). */
  function ObjectAt(d: Object, key: string): (r: Option<Object>)
    ensures r.None? <==> key in d && !d[key].JObj?
    ensures r.Some? && key in d ==> d[key := JObj(r.value)] == d
    ensures r.Some? && key !in d ==> r.value == map[]
  {
    if key !in d then Some(map[])
    else if d[key].JObj? then Some(d[key].fields)
    else None
  }

  /** `setdefault` a second time, on the dictionary the first call left
      behind, returns the same dictionary. */
  lemma ObjectAtStoredBack(d: Object, key: string)
    requires ObjectAt(d, key).Some?
    ensures ObjectAt(d[key := JObj(ObjectAt(d, key).value)], key) == ObjectAt(d, key)
  {
  }

  /** `if MODEL_FALLBACK not in fallbacks: fallbacks.append(MODEL_FALLBACK)`
      on the value of `fallbacks`: a list gains the id at its end when it
      lacks it; a string or a dictionary that already contains the id is
      left alone; anything else raises. */
  function WithFallback(fallbacks: Json): Option<Json> {
    match fallbacks
    case JArr(items) => if JStr(FallbackModel) in items then Some(fallbacks) else Some(JArr(items + [JStr(FallbackModel)]))
    case JStr(s) => if Contains(s, FallbackModel) then Some(fallbacks) else None
    case JObj(fields) => if FallbackModel in fields then Some(fallbacks) else None
    case _ => None
  }

  /** The `model` section after the primary is set and the fallback added. */
  function PatchedModel(model: Object): Option<Object> {
    var withPrimary := model["primary" := JStr(PrimaryModel)];
    match WithFallback(Get(withPrimary, "fallbacks", JArr([])))
    case None => None
    case Some(fallbacks) => Some(withPrimary["fallbacks" := fallbacks])
  }

  /** The allow-list after the two aliases are registered. */
  function PatchedAllowed(allowed: Object): Object {
    var withFallback := if FallbackModel in allowed then allowed else allowed[FallbackModel := Alias("opus")];
    withFallback[PrimaryModel := Alias("gh-opus")]
  }

  /** `ensure_agent_defaults(cfg)`: the configuration it leaves behind, or
      None where it raises. */
  function WithAgentDefaults(cfg: Object): Option<Object> {
    match ObjectAt(cfg, "agents")
    case None => None
    case Some(agents) =>
      match ObjectAt(agents, "defaults")
      case None => None
      case Some(defaults) =>
        match ObjectAt(defaults, "model")
        case None => None
        case Some(model) =>
          match PatchedModel(model)
          case None => None
          case Some(model1) =>
            match ObjectAt(defaults, "models")
            case None => None
            case Some(allowed) =>
              var defaults1 := defaults["model" := JObj(model1)]["models" := JObj(PatchedAllowed(allowed))];
              Some(cfg["agents" := JObj(agents["defaults" := JObj(defaults1)])])
  }

  /** `ensure_provider(cfg)`: the configuration it leaves behind, or None
      where it raises. */
  function WithProvider(cfg: Object): Option<Object> {
    match ObjectAt(cfg, "models")
    case None => None
    case Some(block) =>
      var block1 := if "mode" in block then block else block["mode" := JStr("merge")];
      match ObjectAt(block1, "providers")
      case None => None
      case Some(providers) =>
        Some(cfg["models" := JObj(block1["providers" := JObj(providers[ProviderName := ProviderRecord])])])
  }

  /** The dictionary at `key` when it is present and a dictionary. */
  function Child(d: Object, key: string): Option<Object> {
    if key in d && d[key].JObj? then Some(d[key].fields) else None
  }

  /** `cfg["agents"]["defaults"]`. */
  function Defaults(cfg: Object): Option<Object> {
    match Child(cfg, "agents")
    case None => None
    case Some(agents) => Child(agents, "defaults")
  }

  /** `cfg["agents"]["defaults"]["model"]`. */
  function ModelSection(cfg: Object): Option<Object> {
    match Defaults(cfg)
    case None => None
    case Some(defaults) => Child(defaults, "model")
  }

  /** `cfg["agents"]["defaults"]["models"]`. */
  function AllowedSection(cfg: Object): Option<Object> {
    match Defaults(cfg)
    case None => None
    case Some(defaults) => Child(defaults, "models")
  }

  /** `cfg["models"]["providers"]`. */
  function Providers(cfg: Object): Option<Object> {
    match Child(cfg, "models")
    case None => None
    case Some(block) => Child(block, "providers")
  }

  /** The loaded configuration, which both functions edit in place. */
  class OpenClawConfig {
    var cfg: Object

    constructor(loaded: Object)
      ensures cfg == loaded
    {
      cfg := loaded;
    }

    /** `ensure_agent_defaults(cfg)`; `ok` is false where it raises, and
        then the configuration is as it was. */
    method EnsureAgentDefaults() returns (ok: bool)
      modifies this
      ensures ok <==> WithAgentDefaults(old(cfg)).Some?
      ensures ok ==> cfg == WithAgentDefaults(old(cfg)).value
      ensures !ok ==> cfg == old(cfg)
    {
      var agents := ObjectAt(cfg, "agents");
      if agents.None? { return false; }
      var defaults := ObjectAt(agents.value, "defaults");
      if defaults.None? { return false; }
      var model := ObjectAt(defaults.value, "model");
      if model.None? { return false; }
      var modelCfg := model.value["primary" := JStr(PrimaryModel)];
      var fallbacks := Get(modelCfg, "fallbacks", JArr([]));
      var appended := WithFallback(fallbacks);
      if appended.None? { return false; }
      modelCfg := modelCfg["fallbacks" := appended.value];
      var allowed := ObjectAt(defaults.value, "models");
      if allowed.None? { return false; }
      var allowedCfg := allowed.value;
      if FallbackModel !in allowedCfg {
        allowedCfg := allowedCfg[FallbackModel := Alias("opus")];
      }
      allowedCfg := allowedCfg[PrimaryModel := Alias("gh-opus")];
      var defaultsCfg := defaults.value["model" := JObj(modelCfg)]["models" := JObj(allowedCfg)];
      cfg := cfg["agents" := JObj(agents.value["defaults" := JObj(defaultsCfg)])];
      ok := true;
    }

    /** `ensure_provider(cfg)`; `ok` is false where it raises, and then the
        configuration is as it was. */
    method EnsureProvider() returns (ok: bool)
      modifies this
      ensures ok <==> WithProvider(old(cfg)).Some?
      ensures ok ==> cfg == WithProvider(old(cfg)).value
      ensures !ok ==> cfg == old(cfg)
    {
      var block := ObjectAt(cfg, "models");
      if block.None? { return false; }
      var blockCfg := block.value;
      if "mode" !in blockCfg {
        blockCfg := blockCfg["mode" := JStr("merge")];
      }
      var providers := ObjectAt(blockCfg, "providers");
      if providers.None? { return false; }
      blockCfg := blockCfg["providers" := JObj(providers.value[ProviderName := ProviderRecord])];
      cfg := cfg["models" := JObj(blockCfg)];
      ok := true;
    }
  }

  /** After `ensure_agent_defaults` the primary model is the proxy's,
      whatever it was before. */
  lemma PrimaryIsProxyModel(cfg: Object)
    requires WithAgentDefaults(cfg).Some?
    ensures ModelSection(WithAgentDefaults(cfg).value).Some?
    ensures "primary" in ModelSection(WithAgentDefaults(cfg).value).value
    ensures ModelSection(WithAgentDefaults(cfg).value).value["primary"] == JStr(PrimaryModel)
  {
  }

  /** A fallback list keeps its entries in order, gains at most one, the
      fallback id, and only when it lacked it; afterwards it holds the id. */
  lemma FallbackAppendedOnce(fallbacks: seq<Json>)
    requires WithFallback(JArr(fallbacks)).Some?
    ensures WithFallback(JArr(fallbacks)).value.JArr?
    ensures var after := WithFallback(JArr(fallbacks)).value.items;
      && fallbacks <= after
      && JStr(FallbackModel) in after
      && (JStr(FallbackModel) in fallbacks <==> after == fallbacks)
      && |after| <= |fallbacks| + 1
  {
    var after := WithFallback(JArr(fallbacks)).value.items;
    if JStr(FallbackModel) !in fallbacks {
      assert after[|fallbacks|] == JStr(FallbackModel);
    }
  }

  /** Python's `MODEL_FALLBACK in fallbacks` for the values that support
      it: an element of a list, a substring of a string, a key of a
      dictionary. */
  predicate HoldsFallback(fallbacks: Json) {
    match fallbacks
    case JArr(items) => JStr(FallbackModel) in items
    case JStr(s) => Contains(s, FallbackModel)
    case JObj(fields) => FallbackModel in fields
    case _ => false
  }

  /** The append step leaves a value that already holds the fallback id
      alone, and whatever it returns holds the id. */
  lemma WithFallbackOnlyIfAbsent(fallbacks: Json)
    ensures HoldsFallback(fallbacks) ==> WithFallback(fallbacks) == Some(fallbacks)
    ensures WithFallback(fallbacks).Some? ==> HoldsFallback(WithFallback(fallbacks).value)
    ensures !HoldsFallback(fallbacks) && WithFallback(fallbacks).Some? ==> WithFallback(fallbacks).value != fallbacks
  {
    if fallbacks.JArr? && !HoldsFallback(fallbacks) {
      var after := WithFallback(fallbacks).value.items;
      assert after[|fallbacks.items|] == JStr(FallbackModel);
    }
  }

  /** After `ensure_agent_defaults` the model section's `fallbacks` holds
      the fallback id. */
  lemma FallbackPresentAfterPatch(cfg: Object)
    requires WithAgentDefaults(cfg).Some?
    ensures ModelSection(WithAgentDefaults(cfg).value).Some?
    ensures var model := ModelSection(WithAgentDefaults(cfg).value).value;
      "fallbacks" in model && HoldsFallback(model["fallbacks"])
  {
    var model := ObjectAt(ObjectAt(ObjectAt(cfg, "agents").value, "defaults").value, "model").value;
    WithFallbackOnlyIfAbsent(Get(model["primary" := JStr(PrimaryModel)], "fallbacks", JArr([])));
  }

  /** An existing alias for the fallback id is kept, a missing one becomes
      "opus"; the primary model's alias is always "gh-opus"; every other
      entry of the allow-list is untouched. */
  lemma AllowedEntries(cfg: Object)
    requires WithAgentDefaults(cfg).Some?
    ensures AllowedSection(WithAgentDefaults(cfg).value).Some?
    ensures var before := ObjectAt(ObjectAt(ObjectAt(cfg, "agents").value, "defaults").value, "models").value;
      var after := AllowedSection(WithAgentDefaults(cfg).value).value;
      && after.Keys == before.Keys + {FallbackModel, PrimaryModel}
      && after[PrimaryModel] == Alias("gh-opus")
      && after[FallbackModel] == (if FallbackModel in before then before[FallbackModel] else Alias("opus"))
      && forall k :: k in before && k != FallbackModel && k != PrimaryModel ==> after[k] == before[k]
  {
    assert PrimaryModel != FallbackModel by { assert PrimaryModel[0] != FallbackModel[0]; }
  }

  /** `ensure_agent_defaults` touches only `agents.defaults.model` and
      `agents.defaults.models`: every other key keeps its value at each
      level of that path. */
  lemma AgentDefaultsTouchesOnlyItsPath(cfg: Object)
    requires WithAgentDefaults(cfg).Some?
    ensures var after := WithAgentDefaults(cfg).value;
      && after.Keys == cfg.Keys + {"agents"}
      && (forall k :: k in cfg && k != "agents" ==> after[k] == cfg[k])
    ensures Defaults(WithAgentDefaults(cfg).value).Some?
    ensures var agents := ObjectAt(cfg, "agents").value;
      var defaults := ObjectAt(agents, "defaults").value;
      var after := Defaults(WithAgentDefaults(cfg).value).value;
      && after.Keys == defaults.Keys + {"model", "models"}
      && forall k :: k in defaults && k != "model" && k != "models" ==> after[k] == defaults[k]
    ensures Child(WithAgentDefaults(cfg).value, "agents").Some?
    ensures var agents := ObjectAt(cfg, "agents").value;
      var after := Child(WithAgentDefaults(cfg).value, "agents").value;
      && after.Keys == agents.Keys + {"defaults"}
      && forall k :: k in agents && k != "defaults" ==> after[k] == agents[k]
    ensures ModelSection(WithAgentDefaults(cfg).value).Some?
    ensures var agents := ObjectAt(cfg, "agents").value;
      var model := ObjectAt(ObjectAt(agents, "defaults").value, "model").value;
      var after := ModelSection(WithAgentDefaults(cfg).value).value;
      && after.Keys == model.Keys + {"primary", "fallbacks"}
      && forall k :: k in model && k != "primary" && k != "fallbacks" ==> after[k] == model[k]
  {
  }

  /** `ensure_provider` sets `mode` to "merge" only when it is absent. */
  lemma ModeMergeOnlyIfAbsent(cfg: Object)
    requires WithProvider(cfg).Some?
    ensures Child(WithProvider(cfg).value, "models").Some?
    ensures var before := ObjectAt(cfg, "models").value;
      var after := Child(WithProvider(cfg).value, "models").value;
      && "mode" in after
      && after["mode"] == (if "mode" in before then before["mode"] else JStr("merge"))
  {
  }

  /** The proxy's provider record replaces whatever was registered under its
      name, and every other provider is left as it was. */
  lemma ProviderReplaced(cfg: Object)
    requires WithProvider(cfg).Some?
    ensures Providers(WithProvider(cfg).value).Some?
    ensures var block := ObjectAt(cfg, "models").value;
      var before := if "providers" in block && block["providers"].JObj? then block["providers"].fields else map[];
      var after := Providers(WithProvider(cfg).value).value;
      && after.Keys == before.Keys + {ProviderName}
      && after[ProviderName] == ProviderRecord
      && forall k :: k in before && k != ProviderName ==> after[k] == before[k]
  {
  }

  /** `ensure_provider` touches only the top-level `models` block, and in
      it only `mode` and `providers`. */
  lemma ProviderTouchesOnlyItsPath(cfg: Object)
    requires WithProvider(cfg).Some?
    ensures var after := WithProvider(cfg).value;
      && after.Keys == cfg.Keys + {"models"}
      && (forall k :: k in cfg && k != "models" ==> after[k] == cfg[k])
    ensures Child(WithProvider(cfg).value, "models").Some?
    ensures var before := ObjectAt(cfg, "models").value;
      var after := Child(WithProvider(cfg).value, "models").value;
      && after.Keys == before.Keys + {"mode", "providers"}
      && forall k :: k in before && k != "mode" && k != "providers" ==> after[k] == before[k]
  {
  }

  /** Patching the model section a second time changes nothing. */
  lemma PatchedModelIdempotent(model: Object)
    requires PatchedModel(model).Some?
    ensures PatchedModel(PatchedModel(model).value) == PatchedModel(model)
  {
    var once := PatchedModel(model).value;
    var fallbacks := once["fallbacks"];
    assert once["primary" := JStr(PrimaryModel)] == once;
    if fallbacks.JArr? {
      FallbackAppendedOnce(Get(model["primary" := JStr(PrimaryModel)], "fallbacks", JArr([])).items);
    }
    assert WithFallback(fallbacks) == Some(fallbacks);
    assert once["fallbacks" := fallbacks] == once;
  }

  /** Patching the allow-list a second time changes nothing. */
  lemma PatchedAllowedIdempotent(allowed: Object)
    ensures PatchedAllowed(PatchedAllowed(allowed)) == PatchedAllowed(allowed)
  {
    var once := PatchedAllowed(allowed);
    assert FallbackModel in once;
    assert once[PrimaryModel := Alias("gh-opus")] == once;
  }

  /** Running `ensure_agent_defaults` on its own result changes nothing. */
  lemma AgentDefaultsIdempotent(cfg: Object)
    requires WithAgentDefaults(cfg).Some?
    ensures WithAgentDefaults(WithAgentDefaults(cfg).value) == WithAgentDefaults(cfg)
  {
    var agents := ObjectAt(cfg, "agents").value;
    var defaults := ObjectAt(agents, "defaults").value;
    var model := ObjectAt(defaults, "model").value;
    var allowed := ObjectAt(defaults, "models").value;
    var model1 := PatchedModel(model).value;
    var defaults1 := defaults["model" := JObj(model1)]["models" := JObj(PatchedAllowed(allowed))];
    var agents1 := agents["defaults" := JObj(defaults1)];
    var once := cfg["agents" := JObj(agents1)];
    assert ObjectAt(once, "agents") == Some(agents1);
    assert ObjectAt(agents1, "defaults") == Some(defaults1);
    assert ObjectAt(defaults1, "model") == Some(model1);
    assert ObjectAt(defaults1, "models") == Some(PatchedAllowed(allowed));
    PatchedModelIdempotent(model);
    PatchedAllowedIdempotent(allowed);
    assert defaults1["model" := JObj(model1)]["models" := JObj(PatchedAllowed(allowed))] == defaults1;
    assert agents1["defaults" := JObj(defaults1)] == agents1;
    assert once["agents" := JObj(agents1)] == once;
  }

  /** Running `ensure_provider` on its own result changes nothing. */
  lemma ProviderIdempotent(cfg: Object)
    requires WithProvider(cfg).Some?
    ensures WithProvider(WithProvider(cfg).value) == WithProvider(cfg)
  {
    var block := ObjectAt(cfg, "models").value;
    var block1 := if "mode" in block then block else block["mode" := JStr("merge")];
    var providers := ObjectAt(block1, "providers").value;
    var providers1 := providers[ProviderName := ProviderRecord];
    var block2 := block1["providers" := JObj(providers1)];
    var once := cfg["models" := JObj(block2)];
    assert ObjectAt(once, "models") == Some(block2);
    assert "mode" in block2;
    assert ObjectAt(block2, "providers") == Some(providers1);
    assert providers1[ProviderName := ProviderRecord] == providers1;
    assert block2["providers" := JObj(providers1)] == block2;
    assert once["models" := JObj(block2)] == once;
  }

  /** The two patches edit disjoint parts of the configuration, so the
      order `main` runs them in does not matter. */
  lemma PatchesCommute(cfg: Object)
    requires WithAgentDefaults(cfg).Some? && WithProvider(cfg).Some?
    ensures WithProvider(WithAgentDefaults(cfg).value).Some?
    ensures WithAgentDefaults(WithProvider(cfg).value).Some?
    ensures WithProvider(WithAgentDefaults(cfg).value).value == WithAgentDefaults(WithProvider(cfg).value).value
  {
    var a := WithAgentDefaults(cfg).value;
    var p := WithProvider(cfg).value;
    assert ObjectAt(a, "models") == ObjectAt(cfg, "models");
    assert ObjectAt(p, "agents") == ObjectAt(cfg, "agents");
  }

  /** A configuration without `agents` and `models` is always patched. */
  lemma FreshConfigPatched(cfg: Object)
    requires "agents" !in cfg && "models" !in cfg
    ensures WithAgentDefaults(cfg).Some?
    ensures WithProvider(cfg).Some?
  {
    assert JStr(FallbackModel) !in [];
  }
}
