/** `truncate_request` of the GitHub Models proxy: a rough token estimate of
    a chat request and, when it is over budget, three shrink steps applied
    once each, in order: cut an overlong system prompt, keep a window of the
    messages, cap the tool list. */
module ProxyTruncate {
  import opened Json

  /** One chat message, a JSON object. */
  type Message = map<string, Json>

  /** The budget `chat_completions` truncates to (the default argument). */
  const MaxTokens: int := 6000

  /** `estimate_tokens`: a quarter of the text's length, rounded down. */
  function EstimateTokens(text: string): (r: nat)
    ensures 4 * r <= |text| < 4 * r + 4
  {
    |text| / 4
  }

  /** `m.get("content", "")`. */
  function Content(m: Message): Json {
    Get(m, "content", JStr(""))
  }

  /** `m.get("role") == "system"`. */
  predicate IsSystem(m: Message) {
    "role" in m && m["role"] == JStr("system")
  }

  /** What one message adds to the estimate: its content's text, then 10
      for the role and other metadata. */
  function MessageCost(m: Message, codec: Codec): nat {
    EstimateTokens(PyStr(Content(m), codec)) + 10
  }

  /** The sum over the messages of `estimate_tokens(content) + 10`. */
  function MessageTokens(ms: seq<Message>, codec: Codec): (r: nat)
    ensures r >= 10 * |ms|
  {
    if ms == [] then 0
    else MessageTokens(ms[..|ms| - 1], codec) + MessageCost(ms[|ms| - 1], codec)
  }

  /** The sum over the tools of `estimate_tokens(json.dumps(tool))`. */
  function ToolTokens(ts: seq<Json>, codec: Codec): nat {
    if ts == [] then 0
    else ToolTokens(ts[..|ts| - 1], codec) + EstimateTokens(codec.dumps(ts[|ts| - 1]))
  }

  /** The estimate is additive: the messages of two stretches cost what
      each stretch costs. */
  lemma {:induction false} MessageTokensConcat(a: seq<Message>, b: seq<Message>, codec: Codec)
    ensures MessageTokens(a + b, codec) == MessageTokens(a, codec) + MessageTokens(b, codec)
    decreases |b|
  {
    if b == [] {
      assert a + b == a;
    } else {
      assert (a + b)[..|a + b| - 1] == a + b[..|b| - 1];
      MessageTokensConcat(a, b[..|b| - 1], codec);
    }
  }

  /** The two sums of `truncate_request`, as its generator expressions
      compute them. */
  method EstimatedTotal(ms: seq<Message>, ts: seq<Json>, codec: Codec) returns (total: nat)
    ensures total == MessageTokens(ms, codec) + ToolTokens(ts, codec)
    ensures total >= 10 * |ms|
  {
    var msgTokens := 0;
    for i := 0 to |ms|
      invariant msgTokens == MessageTokens(ms[..i], codec)
    {
      assert ms[..i + 1][..i] == ms[..i];
      msgTokens := msgTokens + EstimateTokens(PyStr(Content(ms[i]), codec)) + 10;
    }
    var toolTokens := 0;
    for i := 0 to |ts|
      invariant toolTokens == ToolTokens(ts[..i], codec)
    {
      assert ts[..i + 1][..i] == ts[..i];
      toolTokens := toolTokens + EstimateTokens(codec.dumps(ts[i]));
    }
    assert ms[..|ms|] == ms && ts[..|ts|] == ts;
    total := msgTokens + toolTokens;
  }

  /** The messages as JSON values. */
  function Objects(ms: seq<Message>): seq<Json> {
    seq(|ms|, i requires 0 <= i < |ms| => JObj(ms[i]))
  }

  /** `data.get("messages", [])` as the token sum iterates it. None where
      the iteration raises: the value is not iterable, or one element is not
      an object and has no `.get`. An empty string or object iterates as no
      messages at all. */
  function MessagesOf(data: map<string, Json>): (r: Option<seq<Message>>)
    ensures r.Some? && r.value != [] ==> "messages" in data && data["messages"] == JArr(Objects(r.value))
  {
    if "messages" !in data then Some([])
    else
      match data["messages"]
      case JArr(items) =>
        if forall i :: 0 <= i < |items| ==> items[i].JObj? then
          var ms := seq(|items|, i requires 0 <= i < |items| => if items[i].JObj? then items[i].fields else map[]);
          assert Objects(ms) == items;
          Some(ms)
        else None
      case JStr(s) => if s == "" then Some([]) else None
      case JObj(fields) => if fields == map[] then Some([]) else None
      case _ => None
  }

  /** `data.get("tools", [])` as the token sum iterates it: a list, or
      nothing for an empty string or object. */
  function ToolsOf(data: map<string, Json>): (r: Option<seq<Json>>)
    ensures r.Some? && r.value != [] ==> "tools" in data && data["tools"] == JArr(r.value)
  {
    if "tools" !in data then Some([])
    else
      match data["tools"]
      case JArr(items) => Some(items)
      case JStr(s) => if s == "" then Some([]) else None
      case JObj(fields) => if fields == map[] then Some([]) else None
      case _ => None
  }

  /** Writing a message list back and reading it again gives the list. */
  lemma MessagesRoundTrip(data: map<string, Json>, ms: seq<Message>)
    ensures MessagesOf(data["messages" := JArr(Objects(ms))]) == Some(ms)
  {
    var items := Objects(ms);
    assert forall i :: 0 <= i < |items| ==> items[i].JObj?;
    var back := seq(|items|, i requires 0 <= i < |items| => if items[i].JObj? then items[i].fields else map[]);
    assert back == ms;
  }

  /** The role-"system" messages in their original order, as the list
      comprehension of strategy 2 collects them. */
  function SystemMessages(ms: seq<Message>): (r: seq<Message>)
    ensures |r| <= |ms|
    ensures forall i :: 0 <= i < |r| ==> IsSystem(r[i])
  {
    if ms == [] then []
    else if IsSystem(ms[|ms| - 1]) then SystemMessages(ms[..|ms| - 1]) + [ms[|ms| - 1]]
    else SystemMessages(ms[..|ms| - 1])
  }

  /** Exactly the system messages of the list are collected. */
  lemma {:induction false} SystemMessagesMembers(ms: seq<Message>, m: Message)
    ensures m in SystemMessages(ms) <==> m in ms && IsSystem(m)
  {
    if ms != [] {
      var front := ms[..|ms| - 1];
      SystemMessagesMembers(front, m);
      assert ms == front + [ms[|ms| - 1]];
    }
  }

  /** The collection works stretch by stretch: the system messages of two
      stretches are those of the first, then those of the second, in order
      and with repeats kept. */
  lemma {:induction false} SystemMessagesConcat(a: seq<Message>, b: seq<Message>)
    ensures SystemMessages(a + b) == SystemMessages(a) + SystemMessages(b)
    decreases |b|
  {
    if b == [] {
      assert a + b == a;
    } else {
      var front := b[..|b| - 1];
      assert (a + b)[..|a + b| - 1] == a + front;
      assert (a + b)[|a + b| - 1] == b[|b| - 1];
      SystemMessagesConcat(a, front);
    }
  }

  /** A list that starts with a system message keeps it first. */
  lemma {:induction false} SystemMessagesKeepsFirst(ms: seq<Message>)
    requires |ms| > 0 && IsSystem(ms[0])
    ensures |SystemMessages(ms)| > 0 && SystemMessages(ms)[0] == ms[0]
  {
    if |ms| > 1 {
      var front := ms[..|ms| - 1];
      SystemMessagesKeepsFirst(front);
      assert front[0] == ms[0];
    }
  }

  /** The marker appended to a cut system prompt. */
  const Marker: string := "\n\n[System prompt truncated for token limits]"

  /** `system_content[:12000] + marker`. */
  function CutText(s: string): string {
    (if |s| <= 12000 then s else s[..12000]) + Marker
  }

  /** Strategy 1 applies: the first message is a system message whose
      content is estimated above 3000 tokens. */
  predicate CutApplies(ms: seq<Message>, codec: Codec) {
    |ms| > 0 && IsSystem(ms[0]) && EstimateTokens(PyStr(Content(ms[0]), codec)) > 3000
  }

  /** The message list after `messages[0]["content"] = truncated`. */
  function CutFirst(ms: seq<Message>): seq<Message>
    requires |ms| > 0 && Content(ms[0]).JStr?
  {
    ms[0 := ms[0]["content" := JStr(CutText(Content(ms[0]).s))]]
  }

  /** `system_msg + messages[-5:]`. */
  function Window(ms: seq<Message>): seq<Message>
    requires |ms| > 6
  {
    SystemMessages(ms) + ms[|ms| - 5..]
  }

  /** `truncate_request(data, maxTokens)`: the request unchanged when its
      estimate is within budget, otherwise the three strategies applied
      once each. None where Python raises: the messages or tools cannot be
      iterated, or a system prompt to cut is not a string. */
  function Truncated(data: map<string, Json>, maxTokens: int, codec: Codec): Option<map<string, Json>> {
    var messages := MessagesOf(data);
    var tools := ToolsOf(data);
    if messages.None? || tools.None? then None
    else
      var ms, ts := messages.value, tools.value;
      if MessageTokens(ms, codec) + ToolTokens(ts, codec) <= maxTokens then Some(data)
      else if CutApplies(ms, codec) && !Content(ms[0]).JStr? then None
      else
        var ms1 := if CutApplies(ms, codec) then CutFirst(ms) else ms;
        var d1 := if CutApplies(ms, codec) then data["messages" := JArr(Objects(ms1))] else data;
        var d2 := if |ms1| > 6 then d1["messages" := JArr(Objects(Window(ms1)))] else d1;
        var d3 := if |ts| > 10 then d2["tools" := JArr(ts[..10])] else d2;
        Some(d3)
  }

  /** Whether the request is over budget and can be iterated. */
  predicate OverBudget(data: map<string, Json>, maxTokens: int, codec: Codec) {
    && MessagesOf(data).Some? && ToolsOf(data).Some?
    && MessageTokens(MessagesOf(data).value, codec) + ToolTokens(ToolsOf(data).value, codec) > maxTokens
  }

  /** Within budget the request is returned as it came. */
  lemma WithinBudgetUnchanged(data: map<string, Json>, maxTokens: int, codec: Codec)
    requires MessagesOf(data).Some? && ToolsOf(data).Some?
    requires !OverBudget(data, maxTokens, codec)
    ensures Truncated(data, maxTokens, codec) == Some(data)
  {
  }

  /** Truncation only ever rewrites `messages` and `tools`, and never adds
      or removes a key. */
  lemma OnlyMessagesAndToolsChange(data: map<string, Json>, maxTokens: int, codec: Codec)
    requires Truncated(data, maxTokens, codec).Some?
    ensures Truncated(data, maxTokens, codec).value.Keys == data.Keys
    ensures forall k :: k in data && k != "messages" && k != "tools" ==>
      Truncated(data, maxTokens, codec).value[k] == data[k]
  {
  }

  /** The messages after strategy 1. */
  function CutMessages(data: map<string, Json>, codec: Codec): seq<Message>
    requires MessagesOf(data).Some?
    requires CutApplies(MessagesOf(data).value, codec) ==> Content(MessagesOf(data).value[0]).JStr?
  {
    var ms := MessagesOf(data).value;
    if CutApplies(ms, codec) then CutFirst(ms) else ms
  }

  /** The message list of the result: the window of the (possibly cut)
      messages when there are more than 6 of them, the (possibly cut)
      messages themselves otherwise. */
  lemma ResultMessages(data: map<string, Json>, maxTokens: int, codec: Codec)
    requires Truncated(data, maxTokens, codec).Some?
    requires OverBudget(data, maxTokens, codec)
    ensures CutApplies(MessagesOf(data).value, codec) ==> Content(MessagesOf(data).value[0]).JStr?
    ensures |CutMessages(data, codec)| > 6 ==>
      MessagesOf(Truncated(data, maxTokens, codec).value) == Some(Window(CutMessages(data, codec)))
    ensures |CutMessages(data, codec)| <= 6 ==>
      MessagesOf(Truncated(data, maxTokens, codec).value) == Some(CutMessages(data, codec))
  {
    var ms := MessagesOf(data).value;
    var ms1 := CutMessages(data, codec);
    var d1 := if CutApplies(ms, codec) then data["messages" := JArr(Objects(ms1))] else data;
    if |ms1| > 6 {
      MessagesRoundTrip(d1, Window(ms1));
      assert Truncated(data, maxTokens, codec).value["messages"] == JArr(Objects(Window(ms1)));
    } else if CutApplies(ms, codec) {
      MessagesRoundTrip(data, ms1);
      assert Truncated(data, maxTokens, codec).value["messages"] == JArr(Objects(ms1));
    }
  }

  /** Strategy 1: a system prompt over 3000 tokens keeps its first 12000
      characters followed by the marker; its other fields and every other
      message are left alone. Without it, no content changes. */
  lemma SystemPromptCut(data: map<string, Json>, codec: Codec)
    requires MessagesOf(data).Some?
    requires CutApplies(MessagesOf(data).value, codec) ==> Content(MessagesOf(data).value[0]).JStr?
    ensures |CutMessages(data, codec)| == |MessagesOf(data).value|
    ensures forall i :: 0 < i < |MessagesOf(data).value| ==> CutMessages(data, codec)[i] == MessagesOf(data).value[i]
    ensures !CutApplies(MessagesOf(data).value, codec) ==> CutMessages(data, codec) == MessagesOf(data).value
    ensures CutApplies(MessagesOf(data).value, codec) ==>
      var first := MessagesOf(data).value[0];
      var s := Content(first).s;
      && |s| > 12000
      && CutMessages(data, codec)[0] == first["content" := JStr(s[..12000] + Marker)]
  {
  }

  /** Strategy 2: the window holds every system message and then the last
      five messages of the original list, so its length is the number of
      system messages plus five. */
  lemma WindowShape(ms: seq<Message>, codec: Codec)
    requires |ms| > 6
    requires CutApplies(ms, codec) ==> Content(ms[0]).JStr?
    ensures var ms1 := if CutApplies(ms, codec) then CutFirst(ms) else ms;
      && |Window(ms1)| == |SystemMessages(ms1)| + 5
      && Window(ms1)[|Window(ms1)| - 5..] == ms[|ms| - 5..]
      && Window(ms1)[..|SystemMessages(ms1)|] == SystemMessages(ms1)
      && (forall m :: m in Window(ms1)[..|SystemMessages(ms1)|] <==> m in ms1 && IsSystem(m))
  {
    var ms1 := if CutApplies(ms, codec) then CutFirst(ms) else ms;
    assert ms1[|ms1| - 5..] == ms[|ms| - 5..];
    assert Window(ms1)[..|SystemMessages(ms1)|] == SystemMessages(ms1);
    assert Window(ms1)[|Window(ms1)| - 5..] == ms1[|ms1| - 5..];
    forall m ensures m in SystemMessages(ms1) <==> m in ms1 && IsSystem(m) {
      SystemMessagesMembers(ms1, m);
    }
  }

  /** A system message that is also among the last five appears twice in
      the window: once among the system messages, once among the recent. */
  lemma {:induction false} SystemMessageInWindowTwice(ms: seq<Message>, j: nat)
    requires |ms| > 6 && |ms| - 5 <= j < |ms| && IsSystem(ms[j])
    ensures exists a, b :: 0 <= a < b < |Window(ms)| && Window(ms)[a] == ms[j] && Window(ms)[b] == ms[j]
  {
    var sys := SystemMessages(ms);
    SystemMessagesMembers(ms, ms[j]);
    var a :| 0 <= a < |sys| && sys[a] == ms[j];
    var b := |sys| + (j - (|ms| - 5));
    assert Window(ms)[a] == ms[j];
    assert Window(ms)[b] == ms[j];
  }

  /** Strategy 3: more than 10 tools are capped to the first 10, in order;
      otherwise the tools stay as they are. */
  lemma ToolCap(data: map<string, Json>, maxTokens: int, codec: Codec)
    requires Truncated(data, maxTokens, codec).Some?
    ensures var ts := ToolsOf(data).value;
      ToolsOf(Truncated(data, maxTokens, codec).value)
        == Some(if OverBudget(data, maxTokens, codec) && |ts| > 10 then ts[..10] else ts)
  {
    var ts := ToolsOf(data).value;
    if OverBudget(data, maxTokens, codec) && |ts| > 10 {
      assert Truncated(data, maxTokens, codec).value["tools"] == JArr(ts[..10]);
    }
  }
}
