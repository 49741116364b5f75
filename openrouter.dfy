/** The OpenRouter-compatible proxy (scripts/openrouter_to_github.py):
    model-id resolution over an ordered table, the allow-list translation of
    a request, the pass-through filter of the upstream event stream, and the
    status decisions of the chat-completions handler. */
module OpenRouter {
  import opened Json
  import opened Text
  import opened Table

  /** The part of the environment-derived configuration the core reads. */
  datatype Config = Config(githubToken: string, defaultModel: string)

  /** `model_mapping()`, in declaration order. */
  const ModelMapping: Table := [
    ("gpt-4", "gpt-4o"),
    ("gpt-4-turbo", "gpt-4o"),
    ("gpt-4o", "gpt-4o"),
    ("gpt-4o-mini", "gpt-4o-mini"),
    ("gpt-3.5-turbo", "gpt-4o-mini"),
    ("o1", "o1"),
    ("o1-mini", "o1-mini"),
    ("o1-preview", "o1-preview"),
    ("claude-3-opus", "claude-3-opus"),
    ("claude-3-sonnet", "claude-3-sonnet"),
    ("claude-3-haiku", "claude-3-haiku"),
    ("claude-3.5-sonnet", "claude-3.5-sonnet"),
    ("opus-4.5", "claude-4.5-opus"),
    ("claude-4.5-opus", "claude-4.5-opus"),
    ("llama-3", "meta-llama-3-70b-instruct"),
    ("llama-3-70b", "meta-llama-3-70b-instruct"),
    ("llama-3.1-405b", "meta-llama-3.1-405b-instruct"),
    ("mistral-large", "mistral-large"),
    ("mistral-small", "mistral-small"),
    ("command-r", "cohere-command-r"),
    ("command-r-plus", "cohere-command-r-plus")
  ]

  // ---------------------------------------------------------------------
  // Model resolution
  // ---------------------------------------------------------------------

  /** The test inside the search loop: the lower-cased key occurs in the
      lower-cased request, or the lower-cased request occurs in the key. */
  predicate LooselyMatches(key: string, requestedLower: string) {
    Contains(requestedLower, Lower(key)) || Contains(Lower(key), requestedLower)
  }

  /** The early-return search over the table: the index of the first entry
      whose key loosely matches, if any. */
  function FirstLooseMatch(t: Table, requestedLower: string): (r: Option<nat>)
    ensures r.Some? ==> r.value < |t| && LooselyMatches(t[r.value].0, requestedLower)
    ensures r.Some? ==> forall j :: 0 <= j < r.value ==> !LooselyMatches(t[j].0, requestedLower)
    ensures r.None? ==> forall j :: 0 <= j < |t| ==> !LooselyMatches(t[j].0, requestedLower)
  {
    if t == [] then None
    else if LooselyMatches(t[0].0, requestedLower) then Some(0)
    else
      var rest := FirstLooseMatch(t[1..], requestedLower);
      assert forall j :: 0 < j < |t| ==> t[1..][j - 1] == t[j];
      match rest
      case None => None
      case Some(i) => Some(i + 1)
  }

  /** The resolution `get_github_model` performs over a table: an exact
      key, else the first loose match in declaration order, else the request
      itself, else the default. */
  function Resolve(t: Table, requested: string, default: string): string {
    match Lookup(t, requested)
    case Some(v) => v
    case None =>
      match FirstLooseMatch(t, Lower(requested))
      case Some(i) => t[i].1
      case None => if requested != "" then requested else default
  }

  /** `get_github_model`, over `MODEL_MAPPING`. */
  function GetGithubModel(requested: string, cfg: Config): string {
    Resolve(ModelMapping, requested, cfg.defaultModel)
  }

  /** A requested id that is a key resolves to exactly that key's value,
      whatever earlier entries it also loosely matches. (A dictionary literal
      holds each key once, so its entry is the first with that key.) */
  lemma ExactKeyWins(t: Table, requested: string, default: string, i: nat)
    requires i < |t| && t[i].0 == requested
    requires forall j :: 0 <= j < i ==> t[j].0 != requested
    ensures Resolve(t, requested, default) == t[i].1
  {
    LookupFindsEntry(t, i);
  }

  /** Without an exact key, the earliest-declared loosely matching entry
      decides. */
  lemma EarliestLooseMatchWins(t: Table, requested: string, default: string, i: nat)
    requires !HasKey(t, requested)
    requires i < |t| && LooselyMatches(t[i].0, Lower(requested))
    requires forall j :: 0 <= j < i ==> !LooselyMatches(t[j].0, Lower(requested))
    ensures Resolve(t, requested, default) == t[i].1
  {
    var found := FirstLooseMatch(t, Lower(requested));
    assert found.Some?;
    assert found.value <= i;
  }

  /** An id that matches nothing falls back to itself; that id is never
      empty when the table is not, because the empty id loosely matches every
      key. */
  lemma UnmatchedIdIsKept(t: Table, requested: string, default: string)
    requires |t| > 0
    requires !HasKey(t, requested)
    requires forall j :: 0 <= j < |t| ==> !LooselyMatches(t[j].0, Lower(requested))
    ensures requested != ""
    ensures Resolve(t, requested, default) == requested
  {
    if requested == "" {
      EmptyIsContained(Lower(t[0].0));
    }
  }

  /** The empty id resolves to the first entry's value. */
  lemma EmptyIdResolvesToFirstEntry(t: Table, default: string)
    requires |t| > 0 && !HasKey(t, "")
    ensures Resolve(t, "", default) == t[0].1
  {
    EmptyIsContained(Lower(t[0].0));
    assert Lower("") == "";
    EarliestLooseMatchWins(t, "", default, 0);
  }

  /** Over a non-empty table the result is always one of the table's values
      or the non-empty requested id: the default is never returned. */
  lemma DefaultUnreachable(t: Table, requested: string, default: string)
    requires |t| > 0
    ensures HasValue(t, Resolve(t, requested, default))
         || (Resolve(t, requested, default) == requested && requested != "")
  {
    var exact := Lookup(t, requested);
    if exact.Some? {
      var i :| 0 <= i < |t| && t[i] == (requested, exact.value);
      assert t[i].1 == Resolve(t, requested, default);
    } else {
      match FirstLooseMatch(t, Lower(requested))
      case Some(i) =>
        assert t[i].1 == Resolve(t, requested, default);
      case None =>
        UnmatchedIdIsKept(t, requested, default);
    }
  }

  /** The facts about `MODEL_MAPPING` the lemmas below need. */
  lemma ModelMappingEntries()
    ensures |ModelMapping| == 21
    ensures ModelMapping[0] == ("gpt-4", "gpt-4o")
    ensures ModelMapping[3] == ("gpt-4o-mini", "gpt-4o-mini")
  {
  }

  lemma ModelMappingHasNoEmptyKey()
    ensures !HasKey(ModelMapping, "")
  {
  }

  /** Every key of `MODEL_MAPPING` is already lower-case: no character of
      any key is an ASCII capital. */
  lemma ModelMappingKeysLowerCase()
    ensures forall i, j :: 0 <= i < |ModelMapping| && 0 <= j < |ModelMapping[i].0| ==> !('A' <= ModelMapping[i].0[j] <= 'Z')
  {
  }

  /** So an id written in capitals, such as "GPT-4O-MINI", is no key. */
  lemma UpperCaseMiniIsNoKey()
    ensures !HasKey(ModelMapping, "GPT-4O-MINI")
  {
    ModelMappingKeysLowerCase();
    forall i | 0 <= i < |ModelMapping| && |ModelMapping[i].0| > 0
      ensures ModelMapping[i].0 != "GPT-4O-MINI"
    {
      assert !('A' <= ModelMapping[i].0[0] <= 'Z');
    }
  }

  /** For `get_github_model` itself: the empty id gives "gpt-4o", and the
      configured default model is never the answer (unless the request or a
      table value equals it). */
  lemma GetGithubModelNeverDefaults(requested: string, cfg: Config)
    ensures GetGithubModel("", cfg) == "gpt-4o"
    ensures HasValue(ModelMapping, GetGithubModel(requested, cfg))
         || (GetGithubModel(requested, cfg) == requested && requested != "")
  {
    ModelMappingEntries();
    ModelMappingHasNoEmptyKey();
    EmptyIdResolvesToFirstEntry(ModelMapping, cfg.defaultModel);
    DefaultUnreachable(ModelMapping, requested, cfg.defaultModel);
  }

  /** "gpt-4o-mini" contains the first key "gpt-4" but resolves through its
      own entry. */
  lemma ExactKeyBeatsEarlierLooseMatch(cfg: Config)
    ensures LooselyMatches(ModelMapping[0].0, Lower("gpt-4o-mini"))
    ensures GetGithubModel("gpt-4o-mini", cfg) == "gpt-4o-mini"
  {
    ModelMappingEntries();
    assert Lower("gpt-4") == "gpt-4";
    assert Lower("gpt-4o-mini") == "gpt-4o-mini";
    assert OccursAt("gpt-4o-mini", "gpt-4", 0);
    ExactKeyWins(ModelMapping, "gpt-4o-mini", cfg.defaultModel, 3);
  }

  /** "GPT-4O-MINI" is no key and resolves through "gpt-4", not through the
      entry that differs from it only in case. */
  lemma UpperCaseIdResolvesThroughFirstLooseMatch(cfg: Config)
    ensures GetGithubModel("GPT-4O-MINI", cfg) == "gpt-4o"
  {
    ModelMappingEntries();
    UpperCaseMiniIsNoKey();
    assert Lower("gpt-4") == "gpt-4";
    assert Lower("GPT-4O-MINI") == "gpt-4o-mini";
    assert OccursAt("gpt-4o-mini", "gpt-4", 0);
    assert LooselyMatches(ModelMapping[0].0, Lower("GPT-4O-MINI"));
    EarliestLooseMatchWins(ModelMapping, "GPT-4O-MINI", cfg.defaultModel, 0);
  }

  // ---------------------------------------------------------------------
  // Request translation
  // ---------------------------------------------------------------------

  /** The scalar parameters copied through when present. */
  const PassthroughKeys: seq<string> := [
    "temperature", "max_tokens", "top_p", "stream", "stop", "presence_penalty", "frequency_penalty"
  ]

  /** `openai_request.get("model", config.default_model)`. */
  function RequestedModel(req: map<string, Json>, cfg: Config): Json {
    Get(req, "model", JStr(cfg.defaultModel))
  }

  /** `out` is the upstream payload for `req`: the messages (or an empty
      list), the resolved model, and the allow-listed keys the request has,
      with their values, and nothing else. */
  predicate Translates(req: map<string, Json>, cfg: Config, out: map<string, Json>)
    requires RequestedModel(req, cfg).JStr?
  {
    && out.Keys == {"messages", "model"} + (set k | k in PassthroughKeys && k in req)
    && out["messages"] == Get(req, "messages", JArr([]))
    && out["model"] == JStr(GetGithubModel(RequestedModel(req, cfg).s, cfg))
    && forall k :: k in PassthroughKeys && k in req ==> out[k] == req[k]
  }

  /** `Translates` leaves no freedom: it determines the payload. */
  lemma TranslationIsDetermined(req: map<string, Json>, cfg: Config, a: map<string, Json>, b: map<string, Json>)
    requires RequestedModel(req, cfg).JStr?
    requires Translates(req, cfg, a) && Translates(req, cfg, b)
    ensures a == b
  {
    assert a.Keys == b.Keys;
    assert a["model"] == b["model"] && a["messages"] == b["messages"];
    forall k | k in a.Keys && k != "model" && k != "messages" ensures a[k] == b[k] {
      assert k in PassthroughKeys && k in req;
    }
  }

  /** The loop of `transform_request` that copies each allow-listed key the
      request has. */
  method CopyPassthrough(req: map<string, Json>) returns (allowed: map<string, Json>)
    ensures allowed.Keys == set k | k in PassthroughKeys && k in req
    ensures forall k :: k in allowed ==> allowed[k] == req[k]
  {
    allowed := map[];
    for n := 0 to |PassthroughKeys|
      invariant allowed.Keys == set k | k in PassthroughKeys[..n] && k in req
      invariant forall k :: k in allowed ==> k in req && allowed[k] == req[k]
    {
      var key := PassthroughKeys[n];
      assert PassthroughKeys[..n + 1] == PassthroughKeys[..n] + [key];
      if key in req {
        allowed := allowed[key := req[key]];
      }
    }
    assert PassthroughKeys[..|PassthroughKeys|] == PassthroughKeys;
  }

  /** `transform_request`. A requested model that is not a string makes
      `get_github_model` raise; the result is then None. */
  method TransformRequest(req: map<string, Json>, cfg: Config) returns (r: Option<map<string, Json>>)
    ensures r.None? <==> !RequestedModel(req, cfg).JStr?
    ensures r.Some? ==> Translates(req, cfg, r.value)
  {
    var requested := RequestedModel(req, cfg);
    if !requested.JStr? {
      return None;
    }
    var allowed := CopyPassthrough(req);
    var out := allowed["messages" := Get(req, "messages", JArr([]))]["model" := JStr(GetGithubModel(requested.s, cfg))];
    return Some(out);
  }

  /** Keys outside the allow-list, such as "store" or "tools", never reach
      the upstream payload. */
  lemma UnlistedKeysDropped(req: map<string, Json>, cfg: Config, out: map<string, Json>, key: string)
    requires RequestedModel(req, cfg).JStr?
    requires Translates(req, cfg, out)
    requires key !in PassthroughKeys && key != "messages" && key != "model"
    ensures key !in out
  {
  }

  // ---------------------------------------------------------------------
  // Streaming pass-through
  // ---------------------------------------------------------------------

  /** A line `stream_response` forwards: non-blank and an SSE data line. */
  predicate Forwarded(line: string) {
    line != "" && StartsWith(line, "data: ")
  }

  /** The frames `stream_response` yields for the lines upstream delivered. */
  function PassThrough(lines: seq<string>): (r: seq<string>)
    ensures |r| <= |lines|
    ensures forall i :: 0 <= i < |r| ==> StartsWith(r[i], "data: ")
  {
    if lines == [] then []
    else
      var last := lines[|lines| - 1];
      var front := PassThrough(lines[..|lines| - 1]);
      if Forwarded(last) then
        assert (last + "\n\n")[..6] == last[..6];
        front + [last + "\n\n"]
      else front
  }

  /** `stream_response`: the generator's loop over `iter_lines`. */
  method StreamResponse(lines: seq<string>) returns (out: seq<string>)
    ensures out == PassThrough(lines)
  {
    out := [];
    for i := 0 to |lines|
      invariant out == PassThrough(lines[..i])
    {
      assert lines[..i + 1][..i] == lines[..i];
      var line := lines[i];
      if line == "" {
        continue;
      }
      if StartsWith(line, "data: ") {
        out := out + [line + "\n\n"];
      }
    }
    assert lines[..|lines|] == lines;
  }

  /** The filter works line by line: the frames for two stretches of lines
      are the frames of each, one after the other. */
  lemma {:induction false} PassThroughConcat(a: seq<string>, b: seq<string>)
    ensures PassThrough(a + b) == PassThrough(a) + PassThrough(b)
    decreases |b|
  {
    if b == [] {
      assert a + b == a;
    } else {
      var b' := b[..|b| - 1];
      assert (a + b)[..|a + b| - 1] == a + b';
      PassThroughConcat(a, b');
    }
  }

  /** Exactly the forwarded lines appear, each with the blank-line
      terminator added. */
  lemma {:induction false} PassThroughMembers(lines: seq<string>, frame: string)
    ensures frame in PassThrough(lines) <==> exists i :: 0 <= i < |lines| && Forwarded(lines[i]) && frame == lines[i] + "\n\n"
  {
    if lines != [] {
      var front := lines[..|lines| - 1];
      PassThroughMembers(front, frame);
      assert forall i :: 0 <= i < |front| ==> front[i] == lines[i];
      if exists i :: 0 <= i < |lines| && Forwarded(lines[i]) && frame == lines[i] + "\n\n" {
        var i :| 0 <= i < |lines| && Forwarded(lines[i]) && frame == lines[i] + "\n\n";
        if i < |front| {
          assert front[i] == lines[i];
        }
      }
    }
  }

  /** The `[DONE]` sentinel is forwarded like any data line and does not end
      the iteration. */
  lemma DoneDoesNotStopPassThrough(before: seq<string>, after: seq<string>)
    ensures PassThrough(before + ["data: [DONE]"] + after)
         == PassThrough(before) + ["data: [DONE]\n\n"] + PassThrough(after)
  {
    PassThroughConcat(before + ["data: [DONE]"], after);
    PassThroughConcat(before, ["data: [DONE]"]);
    assert PassThrough(["data: [DONE]"]) == ["data: [DONE]\n\n"] by {
      assert "data: [DONE]"[..6] == "data: ";
      assert ["data: [DONE]"][..0] == [];
      assert "data: [DONE]" + "\n\n" == "data: [DONE]\n\n";
    }
  }

  // ---------------------------------------------------------------------
  // The chat-completions handler
  // ---------------------------------------------------------------------

  function ErrorBody(message: string, kind: string): Json {
    JObj(map["error" := JObj(map["message" := JStr(message), "type" := JStr(kind)])])
  }

  function ApiErrorBody(text: string, status: int): Json {
    JObj(map["error" := JObj(map[
      "message" := JStr("GitHub Models API error: " + text),
      "type" := JStr("api_error"),
      "code" := JNum(status as real)])])
  }

  /** The error code inside an error body, if it has one. */
  function ErrorCode(body: Json): Option<Json> {
    if body.JObj? && "error" in body.fields && body.fields["error"].JObj?
       && "code" in body.fields["error"].fields
    then Some(body.fields["error"].fields["code"])
    else None
  }

  /** `chat_completions`. `body` is `request.get_json(silent=True)` (None
      when the body is not JSON); `upstream` is what the single upstream call
      answered; `sent` is the payload the handler sent, if it got that far. */
  method ChatCompletions(cfg: Config, body: Option<Json>, codec: Codec, upstream: Upstream)
    returns (sent: Option<map<string, Json>>, reply: Reply)
    ensures cfg.githubToken == "" ==>
      sent == None && reply == JsonReply(500, ErrorBody("GITHUB_TOKEN not set", "configuration_error"))
    ensures cfg.githubToken != "" && (body.None? || !Truthy(body.value)) ==>
      sent == None && reply == JsonReply(400, ErrorBody("Invalid JSON body", "invalid_request_error"))
    ensures sent.Some? <==>
      cfg.githubToken != "" && body.Some? && body.value.JObj? && Truthy(body.value)
      && RequestedModel(body.value.fields, cfg).JStr?
    ensures sent.Some? ==> Translates(body.value.fields, cfg, sent.value)
    ensures cfg.githubToken != "" && body.Some? && Truthy(body.value) && sent.None? ==> reply == ServerError
    ensures sent.Some? && upstream.Unreachable? ==> reply == ServerError
    ensures sent.Some? && upstream.Answered? && upstream.status != 200 ==>
      reply.JsonReply? && reply.status == upstream.status
      && reply.body == ApiErrorBody(upstream.text, upstream.status)
      && ErrorCode(reply.body) == Some(JNum(upstream.status as real))
    ensures sent.Some? && upstream.Answered? && upstream.status == 200 ==>
      if Truthy(Get(sent.value, "stream", JNull)) then reply == EventStream(PassThrough(upstream.lines))
      else if codec.loads(upstream.text).Some? then reply == JsonReply(200, codec.loads(upstream.text).value)
      else reply == ServerError
  {
    sent := None;
    if cfg.githubToken == "" {
      return None, JsonReply(500, ErrorBody("GITHUB_TOKEN not set", "configuration_error"));
    }
    if body.None? || !Truthy(body.value) {
      return None, JsonReply(400, ErrorBody("Invalid JSON body", "invalid_request_error"));
    }
    if !body.value.JObj? {
      // `openai_request.get` raises AttributeError on a list, string or number.
      return None, ServerError;
    }
    var request := TransformRequest(body.value.fields, cfg);
    if request.None? {
      return None, ServerError;
    }
    sent := request;
    var isStream := Truthy(Get(request.value, "stream", JNull));
    if upstream.Unreachable? {
      return sent, ServerError;
    }
    if upstream.status != 200 {
      return sent, JsonReply(upstream.status, ApiErrorBody(upstream.text, upstream.status));
    }
    if isStream {
      var frames := StreamResponse(upstream.lines);
      return sent, EventStream(frames);
    }
    match codec.loads(upstream.text)
    case None =>
      reply := ServerError;
    case Some(j) =>
      reply := JsonReply(200, j);
  }
}
