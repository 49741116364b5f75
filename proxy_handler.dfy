/** The `/v1/chat/completions` route of the GitHub Models proxy: the
    request body is rewritten and truncated in place, then forwarded either
    as a streamed or as a plain request. The answer of the upstream API, the
    random id and the clock reading are parameters. */
module GithubProxy {
  import opened Json
  import opened Text
  import opened Table
  import opened ProxyModel
  import opened ProxyTruncate
  import opened ProxyResponse

  /** The decoded request body, which the handler edits before sending it
      on. */
  class ProxyRequest {
    var data: map<string, Json>

    constructor(body: map<string, Json>)
      ensures data == body
    {
      data := body;
    }

    /** The model rewrite of `chat_completions`: reads the requested id and
        the stream flag, replaces `model` with the upstream id and drops
        `store`. `ok` is false where the dictionary lookup raises, and then
        nothing has changed. */
    method RewriteModel() returns (requested: Json, streaming: bool, ok: bool)
      modifies this
      ensures requested == RequestedModel(old(data))
      ensures ok ==> streaming == Truthy(Get(old(data), "stream", JBool(false)))
      ensures ok <==> Rewritten(old(data)).Some?
      ensures ok ==> data == Rewritten(old(data)).value
      ensures !ok ==> data == old(data)
    {
      requested := Get(data, "model", JStr(DefaultModel));
      streaming := false;
      var upstream := UpstreamModel(requested);
      if upstream.None? {
        return requested, streaming, false;
      }
      data := data["model" := upstream.value];
      streaming := Truthy(Get(data, "stream", JBool(false)));
      data := data - {"store"};
      ok := true;
    }

    /** `truncate_request` applied to the body: `ok` is false where Python
        raises, and otherwise the body is what the truncation specification
        gives. */
    method Truncate(maxTokens: int, codec: Codec) returns (ok: bool)
      modifies this
      ensures ok <==> Truncated(old(data), maxTokens, codec).Some?
      ensures ok ==> data == Truncated(old(data), maxTokens, codec).value
      ensures !ok ==> data == old(data)
    {
      var messages := MessagesOf(data);
      var tools := ToolsOf(data);
      if messages.None? || tools.None? {
        return false;
      }
      var ms, ts := messages.value, tools.value;
      var total := EstimatedTotal(ms, ts, codec);
      if total <= maxTokens {
        return true;
      }
      if |ms| > 0 && IsSystem(ms[0]) {
        var content := Content(ms[0]);
        if EstimateTokens(PyStr(content, codec)) > 3000 {
          if !content.JStr? {
            return false;
          }
          ms := ms[0 := ms[0]["content" := JStr(CutText(content.s))]];
          data := data["messages" := JArr(Objects(ms))];
        }
      }
      if |ms| > 6 {
        data := data["messages" := JArr(Objects(Window(ms)))];
      }
      if |ts| > 10 {
        data := data["tools" := JArr(ts[..10])];
      }
      ok := true;
    }
  }

  /** `f"chatcmpl-{uuid.uuid4().hex[:24]}"`. */
  function ChunkId(uuidHex: string): (r: string)
    requires |uuidHex| == 32
    ensures |r| == 33
    ensures StartsWith(r, "chatcmpl-")
  {
    "chatcmpl-" + uuidHex[..24]
  }

  /** Two uuids give the same chunk id exactly when their first 24 hex
      digits agree; the last 8 play no part. */
  lemma ChunkIdDeterminedByPrefix(a: string, b: string)
    requires |a| == 32 && |b| == 32
    ensures ChunkId(a) == ChunkId(b) <==> a[..24] == b[..24]
  {
    if ChunkId(a) == ChunkId(b) {
      assert ChunkId(a)[9..] == a[..24];
      assert ChunkId(b)[9..] == b[..24];
    }
  }

  /** Whether the request asks for a stream. */
  predicate Streaming(body: map<string, Json>) {
    Truthy(Get(body, "stream", JBool(false)))
  }

  /** The body that the handler sends upstream, None where it raises before
      sending anything. */
  function Forwarded(body: map<string, Json>, codec: Codec): Option<map<string, Json>> {
    match Rewritten(body)
    case None => None
    case Some(rewritten) => Truncated(rewritten, MaxTokens, codec)
  }

  /** `chat_completions` for a POST: the body sent upstream and the reply.
      A streamed reply is stamped with the model id the client asked for,
      not the upstream id; so is the `model` of a plain reply. */
  method ChatCompletions(body: map<string, Json>, upstream: Upstream, uuidHex: string, created: int, codec: Codec)
    returns (forwarded: Option<map<string, Json>>, reply: Reply)
    requires |uuidHex| == 32
    ensures forwarded == Forwarded(body, codec)
    ensures forwarded.None? ==> reply == ServerError
    ensures forwarded.Some? && Streaming(body) ==>
      reply == EventStream(RenderAll(StreamFrames(upstream, Stamp(ChunkId(uuidHex), created, RequestedModel(body)), codec), codec))
    ensures forwarded.Some? && !Streaming(body) ==> reply == NonStreamingReply(upstream, RequestedModel(body), codec)
  {
    var request := new ProxyRequest(body);
    var requested, streaming, rewritten := request.RewriteModel();
    if !rewritten {
      return None, ServerError;
    }
    var truncated := request.Truncate(MaxTokens, codec);
    if !truncated {
      return None, ServerError;
    }
    forwarded := Some(request.data);
    if streaming {
      var out := Generate(upstream, Stamp(ChunkId(uuidHex), created, requested), codec);
      reply := EventStream(out);
    } else {
      reply := NonStreamingReply(upstream, requested, codec);
    }
  }

  /** The body sent upstream never holds `store`, always holds `model`, and
      its `model` is the upstream id of the requested one. */
  lemma ForwardedModel(body: map<string, Json>, codec: Codec)
    requires Forwarded(body, codec).Some?
    ensures "store" !in Forwarded(body, codec).value
    ensures "model" in Forwarded(body, codec).value
    ensures Some(Forwarded(body, codec).value["model"]) == UpstreamModel(RequestedModel(body))
  {
    var rewritten := Rewritten(body).value;
    RewriteTouchesOnlyModelAndStore(body);
    OnlyMessagesAndToolsChange(rewritten, MaxTokens, codec);
  }

  /** Keys other than `model`, `store`, `messages` and `tools` reach the
      upstream API untouched. */
  lemma OtherKeysForwarded(body: map<string, Json>, codec: Codec, k: string)
    requires Forwarded(body, codec).Some?
    requires k !in {"model", "store", "messages", "tools"}
    ensures k in Forwarded(body, codec).value <==> k in body
    ensures k in body ==> Forwarded(body, codec).value[k] == body[k]
  {
    var rewritten := Rewritten(body).value;
    RewriteTouchesOnlyModelAndStore(body);
    OnlyMessagesAndToolsChange(rewritten, MaxTokens, codec);
  }
}
