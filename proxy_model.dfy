/** The model rewrite that the GitHub Models proxy applies to an incoming
    chat request before forwarding it. */
module ProxyModel {
  import opened Json
  import opened Table

  /** `MODEL_MAP`, in declaration order. */
  const ModelMap: Table := [
    ("gpt-4o", "gpt-4o"),
    ("gpt-4o-mini", "gpt-4o-mini"),
    ("gpt-4", "gpt-4o"),
    ("gpt-3.5-turbo", "gpt-4o-mini"),
    ("o1", "o1"),
    ("o1-mini", "o1-mini"),
    ("o1-preview", "o1-preview"),
    ("claude-3.5-sonnet", "claude-3-5-sonnet"),
    ("claude-3-5-sonnet", "claude-3-5-sonnet")
  ]

  /** The id used when the request names no model. */
  const DefaultModel: string := "gpt-4o"

  /** `data.get("model", "gpt-4o")`. */
  function RequestedModel(data: map<string, Json>): Json {
    Get(data, "model", JStr(DefaultModel))
  }

  /** `MODEL_MAP.get(requested, requested)`. A list or an object cannot be a
      dictionary key, so Python raises TypeError for them (None here); a
      number, a boolean or null is no key and is kept. */
  function UpstreamModel(requested: Json): (r: Option<Json>)
    ensures r.None? <==> requested.JArr? || requested.JObj?
    ensures r.Some? && !requested.JStr? ==> r.value == requested
    ensures requested.JStr? ==> r.Some? && r.value.JStr?
  {
    match requested
    case JStr(id) =>
      (match Lookup(ModelMap, id)
       case Some(mapped) => Some(JStr(mapped))
       case None => Some(requested))
    case JArr(_) => None
    case JObj(_) => None
    case _ => Some(requested)
  }

  /** The request after the handler's rewrite: `model` replaced by its
      upstream id and `store` removed. None where the lookup raises. */
  function Rewritten(data: map<string, Json>): Option<map<string, Json>> {
    match UpstreamModel(RequestedModel(data))
    case None => None
    case Some(upstream) => Some(data["model" := upstream] - {"store"})
  }

  lemma ModelMapKeysUnique()
    ensures KeysUnique(ModelMap)
  {
  }

  /** A requested id that is a key of the map becomes its value. */
  lemma MappedIdTranslated(data: map<string, Json>, i: nat)
    requires i < |ModelMap|
    requires RequestedModel(data) == JStr(ModelMap[i].0)
    ensures Rewritten(data).Some?
    ensures Rewritten(data).value["model"] == JStr(ModelMap[i].1)
  {
    ModelMapKeysUnique();
    LookupFindsEntry(ModelMap, i);
  }

  /** Any other string id is forwarded as it was given. */
  lemma UnmappedIdKept(data: map<string, Json>, id: string)
    requires RequestedModel(data) == JStr(id)
    requires !HasKey(ModelMap, id)
    ensures Rewritten(data) == Some(data["model" := JStr(id)] - {"store"})
  {
  }

  /** A request without a model is sent to "gpt-4o". */
  lemma MissingModelDefaults(data: map<string, Json>)
    requires "model" !in data
    ensures Rewritten(data).Some?
    ensures Rewritten(data).value["model"] == JStr("gpt-4o")
  {
    assert ModelMap[0] == ("gpt-4o", "gpt-4o");
  }

  /** Whatever happens to `model`, `store` is gone afterwards, `model` is
      present, and every other key keeps its value. */
  lemma RewriteTouchesOnlyModelAndStore(data: map<string, Json>)
    requires Rewritten(data).Some?
    ensures "store" !in Rewritten(data).value
    ensures "model" in Rewritten(data).value
    ensures forall k :: k != "model" && k != "store" ==>
      (k in Rewritten(data).value <==> k in data)
    ensures forall k :: k in data && k != "model" && k != "store" ==> Rewritten(data).value[k] == data[k]
  {
  }

  /** Every value of the map is a key that maps to itself, so the rewrite
      is idempotent: a request it produced is left as it is. */
  lemma UpstreamModelIdempotent(requested: Json)
    requires UpstreamModel(requested).Some?
    ensures UpstreamModel(UpstreamModel(requested).value) == UpstreamModel(requested)
  {
    if requested.JStr? {
      var r := UpstreamModel(requested).value;
      if HasKey(ModelMap, requested.s) {
        var i :| 0 <= i < |ModelMap| && ModelMap[i] == (requested.s, r.s);
        MapValueIsFixed(i);
      }
    }
  }

  lemma RewrittenIdempotent(data: map<string, Json>)
    requires Rewritten(data).Some?
    ensures Rewritten(Rewritten(data).value) == Rewritten(data)
  {
    var once := Rewritten(data).value;
    UpstreamModelIdempotent(RequestedModel(data));
    assert RequestedModel(once) == UpstreamModel(RequestedModel(data)).value;
    assert once["model" := once["model"]] - {"store"} == once;
  }

  /** Each value of `MODEL_MAP` maps to itself. */
  lemma MapValueIsFixed(i: nat)
    requires i < |ModelMap|
    ensures Lookup(ModelMap, ModelMap[i].1) == Some(ModelMap[i].1)
  {
    var v := ModelMap[i].1;
    var j := if v == "gpt-4o" then 0 else if v == "gpt-4o-mini" then 1 else if v == "o1" then 4
      else if v == "o1-mini" then 5 else if v == "o1-preview" then 6 else 8;
    assert ModelMap[j] == (v, v);
    ModelMapKeysUnique();
    LookupFindsEntry(ModelMap, j);
  }
}
