# GitHub Models proxies — a Dafny model

This project models the request/response translation core of two small
Python proxies. Both accept OpenAI-style chat-completion requests and forward
them to the GitHub Models chat API. It also models the one-off script that
registers the proxy in an OpenClaw configuration file.

- `scripts/github_proxy.py` is the token-budget proxy:
  - `estimate_tokens` and `truncate_request` (modules `ProxyTruncate` and `GithubProxy`);
  - the `MODEL_MAP`/`store` rewrite of `chat_completions` (`ProxyModel`, `GithubProxy`);
  - the status and `model` handling of `non_streaming_response`, and the line loop of `stream_response.generate`, which rebuilds the server-sent-event stream chunk by chunk (`ProxyResponse`).
- `scripts/openrouter_to_github.py` is the OpenRouter-compatible proxy (`OpenRouter`):
  - `model_mapping` and `get_github_model`: exact key, else the first loose substring match in declaration order, else the id itself;
  - `transform_request`, an allow-list copy;
  - `stream_response`, a pass-through filter of data lines;
  - the status decisions of `chat_completions`.
- `scripts/configure_github_proxy.py` (`ConfigPatch`): `ensure_agent_defaults` and `ensure_provider`, which edit the nested configuration dictionaries in place.

## How the model is built

- **JSON** values are the `Json` datatype. Objects are `map<string, Json>`, so key order is not modelled. Numbers are reals.
- **Library calls.** `json.loads`, `json.dumps`, `str()` of a non-string and the text of the `AttributeError` that `.get` raises are the fields of a `Codec` value. These are total functions the model does not define, so every property holds for any codec.
- **Upstream answers** are the `Upstream` datatype:
  - either the call raised before a status arrived;
  - or it has a status, the body text, the decoded lines `iter_lines` delivered, and whether the iteration then raised.
- **Python exceptions.** Where Python raises and Flask answers 500, the model returns `ServerError`, or `None`/`false` for an operation that would raise. This covers a `.get` on a non-object, a dictionary lookup keyed by a list, and `+` of a list and a string.
- **Dictionary literals** whose order matters are ordered tables, `seq<(string, string)>`. This applies to `MODEL_MAP` and `model_mapping()`.
- **Objects edited in place** are classes:
  - the request body of the token-budget proxy is `GithubProxy.ProxyRequest`;
  - the loaded configuration is `ConfigPatch.OpenClawConfig`.

  Their methods are proved equal to specification functions (`Rewritten`, `Truncated`, `WithAgentDefaults`, `WithProvider`). The properties are proved as lemmas about those functions.
- **Loops.** The `for` loops and generators that accumulate or yield are methods with loop invariants:
  - the two token sums: `ProxyTruncate.EstimatedTotal`;
  - the allow-list copy: `OpenRouter.CopyPassthrough`;
  - the pass-through generator: `OpenRouter.StreamResponse`;
  - the generator of the token-budget proxy: `ProxyResponse.ReframeLines`, with one pass of its body in `ProxyResponse.HandleLine`.

  Each is proved against a recursive specification function. Two searches and filters that return a value without changing anything are recursive functions instead:
  - the loose-match search loop of `get_github_model`: `OpenRouter.FirstLooseMatch`;
  - the system-message list comprehension of `truncate_request`: `ProxyTruncate.SystemMessages`.
- **Parameters instead of I/O.** The uuid (its 32 hex digits) and the clock reading are parameters of the handler, and so is the upstream answer.

Four behaviours of the code differ from what a caller of these proxies would expect. The model follows the code:

- **The `[DONE]` sentinel.** An OpenAI-style client expects every stream to end with `data: [DONE]`. `generate()` of the token-budget proxy ends without it when upstream closes cleanly without sending it. `ProxyResponse.EndsWithDoneUnlessCleanClose` states exactly when the sentinel is last.
- **Falling back to the default model.** `get_github_model` has a final `return` of the configured default. It is never reached: an id with no exact key is lower-cased and searched loosely, and the empty id is a substring of every key, so it resolves to the first table entry. `OpenRouter.DefaultUnreachable` shows the default is never returned.
- **Truncation raising.** `truncate_request` is called on every request. It raises, and the handler answers 500, in five cases: the messages cannot be iterated; an element of `messages` is not an object, so `m.get` fails; the tools cannot be iterated; a system prompt that must be cut is not a string; over budget, `tools` is a dictionary with more than 10 keys, so `tools[:10]` fails. The model reports the last case as a failure too, through `ToolsOf` (see "## Left out").
- **The requested model in replies.** A client expects replies to name the model it asked for. The OpenRouter proxy forwards upstream frames and bodies unchanged, so they carry the upstream id. The token-budget proxy rewrites `model` in a plain reply only when the reply already has that key.

## Model

| member | source | states |
|---|---|---|
| Table.Lookup | scripts/openrouter_to_github.py:79-80 | a dictionary lookup finds nothing exactly when the key is absent, and a found value belongs to an entry with that key |
| Table.LookupFindsEntry | scripts/github_proxy.py:25-35 | a key of a dictionary literal finds the value of its own (first) entry |
| Text.Lower | scripts/openrouter_to_github.py:82 | `.lower()` keeps the length, leaves no upper-case ASCII letter, keeps every other character, and turns an upper-case letter into its lower-case partner |
| Text.LowerIdempotent | scripts/openrouter_to_github.py:82-84 | lower-casing an already lower-cased string changes nothing |
| Text.Digits | scripts/github_proxy.py:173 | the decimal text of a status is non-empty, all digits, without a leading zero, and reading it back as a base-ten number gives the status |
| Text.Decimal | scripts/github_proxy.py:173 | `f"{n}"` is a minus sign exactly for a negative number, then base-ten digits without a leading zero (except for 0) that read back as the magnitude |
| Text.EmptyIsContained | scripts/openrouter_to_github.py:84 | the empty string is a substring of every string |
| ProxyModel.UpstreamModel | scripts/github_proxy.py:112-113 | `MODEL_MAP.get(id, id)` raises exactly for a list or object id, keeps any non-string id, and gives a string for a string id |
| ProxyModel.Rewritten | scripts/github_proxy.py:111-118 | definition of the handler's rewrite; its meaning is stated by `RewriteTouchesOnlyModelAndStore`, `MappedIdTranslated`, `UnmappedIdKept`, `MissingModelDefaults` and `RewrittenIdempotent` |
| ProxyModel.ModelMapKeysUnique | scripts/github_proxy.py:25-35 | no key of `MODEL_MAP` is repeated |
| ProxyModel.MappedIdTranslated | scripts/github_proxy.py:112-114 | a requested id that is a key of `MODEL_MAP` is replaced by that key's value |
| ProxyModel.UnmappedIdKept | scripts/github_proxy.py:112-119 | any other string id is forwarded unchanged, with `store` dropped |
| ProxyModel.MissingModelDefaults | scripts/github_proxy.py:112 | a request without `model` is sent to "gpt-4o" |
| ProxyModel.RewriteTouchesOnlyModelAndStore | scripts/github_proxy.py:112-119 | after the rewrite `store` is absent, `model` is present, and every other key keeps its presence and value |
| ProxyModel.UpstreamModelIdempotent | scripts/github_proxy.py:25-35 | mapping an already mapped id changes nothing |
| ProxyModel.RewrittenIdempotent | scripts/github_proxy.py:112-119 | rewriting a rewritten request gives the same request |
| ProxyModel.MapValueIsFixed | scripts/github_proxy.py:25-35 | every value of `MODEL_MAP` maps to itself |
| ProxyTruncate.EstimateTokens | scripts/github_proxy.py:57-59 | the estimate is the length divided by four, rounded down |
| ProxyTruncate.MessageTokens | scripts/github_proxy.py:69 | the message sum is at least 10 per message |
| ProxyTruncate.MessageTokensConcat | scripts/github_proxy.py:69 | the message sum is additive over concatenation |
| ProxyTruncate.ToolTokens | scripts/github_proxy.py:70 | definition of the tool sum; its meaning is stated by `EstimatedTotal`, whose loop computes it |
| ProxyTruncate.EstimatedTotal | scripts/github_proxy.py:64-71 | the two summing loops compute the message sum plus the tool sum |
| ProxyTruncate.MessagesOf | scripts/github_proxy.py:65 | a non-empty message list read from the request is exactly the request's `messages` list of objects |
| ProxyTruncate.ToolsOf | scripts/github_proxy.py:66 | a non-empty tool list read from the request is exactly the request's `tools` list |
| ProxyTruncate.MessagesRoundTrip | scripts/github_proxy.py:92 | writing a message list into `messages` and reading it back gives the same list |
| ProxyTruncate.SystemMessages | scripts/github_proxy.py:90 | the collected list is no longer than the input and holds only system messages |
| ProxyTruncate.SystemMessagesMembers | scripts/github_proxy.py:90 | a message is collected exactly when it is in the list and has role "system" |
| ProxyTruncate.SystemMessagesConcat | scripts/github_proxy.py:90 | the system messages of two stretches are those of the first, then those of the second, in order and with repeats |
| ProxyTruncate.SystemMessagesKeepsFirst | scripts/github_proxy.py:90 | a leading system message stays first among the collected ones |
| ProxyTruncate.Truncated | scripts/github_proxy.py:62-101 | definition of `truncate_request`; its meaning is stated by `WithinBudgetUnchanged`, `OnlyMessagesAndToolsChange`, `ResultMessages`, `SystemPromptCut`, `WindowShape` and `ToolCap` |
| ProxyTruncate.WithinBudgetUnchanged | scripts/github_proxy.py:75-76 | a request whose estimate is within budget is returned unchanged |
| ProxyTruncate.OnlyMessagesAndToolsChange | scripts/github_proxy.py:62-101 | truncation keeps the key set, and every key other than `messages` and `tools` keeps its value |
| ProxyTruncate.ResultMessages | scripts/github_proxy.py:79-92 | the resulting messages are the window of the cut messages when more than 6, otherwise the cut messages |
| ProxyTruncate.SystemPromptCut | scripts/github_proxy.py:79-85 | only a leading system prompt over 3000 tokens changes: it becomes its first 12000 characters plus the marker, and no other message changes |
| ProxyTruncate.WindowShape | scripts/github_proxy.py:89-92 | the window starts with exactly the collected system messages, in order, and ends with the last five messages; its length is the system count plus five |
| ProxyTruncate.SystemMessageInWindowTwice | scripts/github_proxy.py:90-92 | a system message among the last five appears twice in the window |
| ProxyTruncate.ToolCap | scripts/github_proxy.py:96-98 | over budget, more than 10 tools become the first 10 in order; otherwise the tools are unchanged |
| ProxyResponse.NonStreamingReply | scripts/github_proxy.py:140-151 | definition of `non_streaming_response`; its meaning is stated by `ErrorStatusPassedThrough`, `ModelRewrittenOnlyIfPresent` and `JsonReplyIsOk` |
| ProxyResponse.ErrorStatusPassedThrough | scripts/github_proxy.py:144-145 | a non-200 answer is returned with its own status and text |
| ProxyResponse.ModelRewrittenOnlyIfPresent | scripts/github_proxy.py:147-151 | a decoded object keeps its keys and values, except that an existing `model` becomes the requested id |
| ProxyResponse.JsonReplyIsOk | scripts/github_proxy.py:144-151 | a JSON reply has status 200 and comes from a decodable 200 answer |
| ProxyResponse.RenderAll | scripts/github_proxy.py:177-178 | one `data: …` text per frame, in order |
| ProxyResponse.RenderAllConcat | scripts/github_proxy.py:217 | rendering is frame by frame |
| ProxyResponse.LineStep | scripts/github_proxy.py:182-217 | every chunk a line emits carries the stream's id, timestamp and requested model |
| ProxyResponse.Steps | scripts/github_proxy.py:181 | built line by line, the steps are one per delivered line, and the step at each position is that line's step |
| ProxyResponse.HandleLine | scripts/github_proxy.py:182-219 | one pass of the loop body skips the line, emits one chunk, stops at the sentinel, or raises, as the line's step says |
| ProxyResponse.StreamFrames | scripts/github_proxy.py:157-236 | definition of everything `generate()` yields, as frames; its meaning is stated by `DoneOnlyLast`, `EndsWithDoneUnlessCleanClose`, `EveryChunkStamped`, `ErrorStatusGivesTwoFrames` and `NothingAfterSentinel` |
| ProxyResponse.Generate | scripts/github_proxy.py:157-236 | `generate()` yields the rendered frames of the stream: the error pair for an upstream failure or status, else the line frames, plus the error pair when the iteration raises before stopping |
| ProxyResponse.ReframeLines | scripts/github_proxy.py:181-219 | the loop yields the rendered frames of the lines, and reports whether it stopped at the sentinel or an exception |
| ProxyResponse.Advance | scripts/github_proxy.py:181-219 | one loop turn extends the yielded frames by that line's frames, and only the sentinel or an exception ends the loop |
| ProxyResponse.StepOutStops | scripts/github_proxy.py:191-193 | the output ends with the sentinel exactly after a step that leaves the loop |
| ProxyResponse.FramesAt | scripts/github_proxy.py:181-219 | the frames from a line on are that line's frames, then, unless it left the loop, those of the later lines |
| ProxyResponse.FramesShape | scripts/github_proxy.py:181-219 | every frame but the last is a chunk, and the sentinel ends the frames exactly when some line ended the loop |
| ProxyResponse.DoneOnlyLast | scripts/github_proxy.py:157-236 | no frame of a stream follows the sentinel |
| ProxyResponse.EndsWithDoneUnlessCleanClose | scripts/github_proxy.py:161-236 | the stream ends with the sentinel unless upstream answered 200, closed without raising, and no line ended the loop |
| ProxyResponse.FramesStamped | scripts/github_proxy.py:205-211 | chunks built from stamped steps are stamped |
| ProxyResponse.EveryChunkStamped | scripts/github_proxy.py:157-236 | every chunk of a stream, error chunks included, carries the stream's id and timestamp and the requested model |
| ProxyResponse.StoppedIgnoresRest | scripts/github_proxy.py:191-193 | once the loop has stopped, later lines change nothing |
| ProxyResponse.FramesConcat | scripts/github_proxy.py:181-219 | before it stops, the loop's frames for two runs of lines are the frames of each, one after the other |
| ProxyResponse.StepsConcat | scripts/github_proxy.py:181 | the steps of concatenated lines are the concatenated steps |
| ProxyResponse.SkippedLineEmitsNothing | scripts/github_proxy.py:182-202 | a blank, non-data, undecodable or choice-less line can be removed without changing the stream |
| ProxyResponse.NothingAfterSentinel | scripts/github_proxy.py:189-193 | the `[DONE]` line yields the sentinel, and no later line or failure adds anything |
| ProxyResponse.ChunkKeepsChoicesAndUsage | scripts/github_proxy.py:200-215 | an emitted chunk has exactly the five fixed keys plus `usage` when upstream sent it, and keeps choices and usage unchanged |
| ProxyResponse.ErrorStatusGivesTwoFrames | scripts/github_proxy.py:163-179 | an upstream error status gives exactly two frames: a chunk whose content is "Error: <status>" with finish reason "stop", then the sentinel |
| ProxyResponse.OneChoiceNoChoiceDone | scripts/github_proxy.py:181-217 | a one-choice chunk, an empty-choice chunk and `[DONE]` give one chunk frame and the sentinel |
| GithubProxy.ProxyRequest.RewriteModel | scripts/github_proxy.py:112-119 | the body becomes the rewritten request, or stays unchanged when the lookup raises; returns the requested id and stream flag |
| GithubProxy.ProxyRequest.Truncate | scripts/github_proxy.py:62-101 | the in-place truncation leaves the body equal to the truncation specification, or unchanged where Python raises |
| GithubProxy.ChunkId | scripts/github_proxy.py:158 | the chunk id has 33 characters and starts with "chatcmpl-" |
| GithubProxy.ChunkIdDeterminedByPrefix | scripts/github_proxy.py:158 | two uuids give the same chunk id exactly when their first 24 hex digits agree |
| GithubProxy.ChatCompletions | scripts/github_proxy.py:105-137 | the body sent is the rewritten, truncated request; a streamed reply is the stream stamped with the requested id; a plain reply is the non-streaming reply for the requested id; a raise gives 500 |
| GithubProxy.Forwarded | scripts/github_proxy.py:111-127 | definition of the body the handler sends upstream; its meaning is stated by `ForwardedModel` and `OtherKeysForwarded` |
| GithubProxy.ForwardedModel | scripts/github_proxy.py:112-127 | the forwarded body has no `store`, and its `model` is the upstream id of the requested one |
| GithubProxy.OtherKeysForwarded | scripts/github_proxy.py:112-127 | every other key except `messages` and `tools` reaches upstream unchanged |
| OpenRouter.FirstLooseMatch | scripts/openrouter_to_github.py:83-85 | the search returns the first entry whose lower-cased key and the lower-cased id contain one another, or none if no entry does |
| OpenRouter.ExactKeyWins | scripts/openrouter_to_github.py:79-80 | an id that is a key resolves to that key's value, whatever earlier entries it loosely matches |
| OpenRouter.EarliestLooseMatchWins | scripts/openrouter_to_github.py:82-85 | without an exact key, the earliest loosely matching entry decides |
| OpenRouter.UnmatchedIdIsKept | scripts/openrouter_to_github.py:87 | an id matching nothing is returned as it is, and it is never empty |
| OpenRouter.EmptyIdResolvesToFirstEntry | scripts/openrouter_to_github.py:82-85 | the empty id resolves to the first entry's value |
| OpenRouter.DefaultUnreachable | scripts/openrouter_to_github.py:77-87 | over a non-empty table the result is a table value or the non-empty id; the default is never returned |
| OpenRouter.ModelMappingEntries | scripts/openrouter_to_github.py:49-71 | the mapping has 21 entries; "gpt-4" is first and "gpt-4o-mini" fourth |
| OpenRouter.ModelMappingHasNoEmptyKey | scripts/openrouter_to_github.py:49-71 | no key of the mapping is empty |
| OpenRouter.ModelMappingKeysLowerCase | scripts/openrouter_to_github.py:49-71 | no character of any key is an ASCII capital |
| OpenRouter.UpperCaseMiniIsNoKey | scripts/openrouter_to_github.py:49-71 | so "GPT-4O-MINI" is not a key |
| OpenRouter.Resolve | scripts/openrouter_to_github.py:77-87 | definition of the resolution over a table; its meaning is stated by `ExactKeyWins`, `EarliestLooseMatchWins`, `UnmatchedIdIsKept`, `EmptyIdResolvesToFirstEntry` and `DefaultUnreachable` |
| OpenRouter.GetGithubModel | scripts/openrouter_to_github.py:77-87 | definition of `get_github_model` over `MODEL_MAPPING`; its meaning is stated by `GetGithubModelNeverDefaults`, `ExactKeyBeatsEarlierLooseMatch` and `UpperCaseIdResolvesThroughFirstLooseMatch` |
| OpenRouter.GetGithubModelNeverDefaults | scripts/openrouter_to_github.py:77-87 | the empty id gives "gpt-4o"; the result is a mapping value or the non-empty id itself |
| OpenRouter.ExactKeyBeatsEarlierLooseMatch | scripts/openrouter_to_github.py:79-85 | "gpt-4o-mini" loosely matches "gpt-4" but resolves through its own entry |
| OpenRouter.UpperCaseIdResolvesThroughFirstLooseMatch | scripts/openrouter_to_github.py:79-85 | "GPT-4O-MINI" resolves through "gpt-4" to "gpt-4o" |
| OpenRouter.Translates | scripts/openrouter_to_github.py:90-110 | definition of the payload `transform_request` builds; its meaning is stated by `TranslationIsDetermined`, `TransformRequest` and `UnlistedKeysDropped` |
| OpenRouter.TranslationIsDetermined | scripts/openrouter_to_github.py:90-110 | the translation relation determines the payload |
| OpenRouter.CopyPassthrough | scripts/openrouter_to_github.py:97-108 | the copy holds exactly the allow-listed keys the request has, with their values |
| OpenRouter.TransformRequest | scripts/openrouter_to_github.py:90-110 | the payload is the messages (or an empty list), the resolved model and the present allow-listed keys, and nothing else; a non-string model raises |
| OpenRouter.UnlistedKeysDropped | scripts/openrouter_to_github.py:97-108 | keys outside the allow-list, such as `store`, never reach upstream |
| OpenRouter.PassThrough | scripts/openrouter_to_github.py:126-132 | never more frames than lines, and every frame is a data line |
| OpenRouter.StreamResponse | scripts/openrouter_to_github.py:126-132 | the generator yields the pass-through frames of the lines |
| OpenRouter.PassThroughConcat | scripts/openrouter_to_github.py:127-132 | the filter works line by line over concatenation |
| OpenRouter.PassThroughMembers | scripts/openrouter_to_github.py:127-132 | a frame is yielded exactly when it is a non-blank data line plus the blank-line terminator |
| OpenRouter.DoneDoesNotStopPassThrough | scripts/openrouter_to_github.py:127-132 | `[DONE]` is forwarded like any data line and later lines still pass |
| OpenRouter.ChatCompletions | scripts/openrouter_to_github.py:136-173 | a missing token gives 500 with a configuration error; an empty or invalid body gives 400; the payload sent is the translation; a non-200 status gives an API error body with that status as code; otherwise the stream pass-through or the decoded body |
| ConfigPatch.ObjectAt | scripts/configure_github_proxy.py:27-28 | `setdefault(key, {})` fails exactly on a present value that is not a dictionary; storing back what it returns leaves an existing entry as it was, and a new entry is empty |
| ConfigPatch.ObjectAtStoredBack | scripts/configure_github_proxy.py:27-28 | a second `setdefault` on what the first left behind returns the same dictionary |
| ConfigPatch.OpenClawConfig.EnsureAgentDefaults | scripts/configure_github_proxy.py:26-36 | the configuration becomes the agent-defaults patch of the old one, or is unchanged where Python raises |
| ConfigPatch.OpenClawConfig.EnsureProvider | scripts/configure_github_proxy.py:39-71 | the configuration becomes the provider patch of the old one, or is unchanged where Python raises |
| ConfigPatch.WithFallback | scripts/configure_github_proxy.py:30-32 | definition of the fallback step; its meaning is stated by `WithFallbackOnlyIfAbsent` and `FallbackAppendedOnce` |
| ConfigPatch.PatchedModel | scripts/configure_github_proxy.py:28-32 | definition of the model-section patch; its meaning is stated by `PrimaryIsProxyModel`, `FallbackPresentAfterPatch` and `PatchedModelIdempotent` |
| ConfigPatch.PatchedAllowed | scripts/configure_github_proxy.py:34-36 | definition of the allow-list patch; its meaning is stated by `AllowedEntries` and `PatchedAllowedIdempotent` |
| ConfigPatch.WithAgentDefaults | scripts/configure_github_proxy.py:26-36 | definition of `ensure_agent_defaults`; its meaning is stated by `AgentDefaultsTouchesOnlyItsPath`, `AgentDefaultsIdempotent`, `PatchesCommute` and `FreshConfigPatched` |
| ConfigPatch.WithProvider | scripts/configure_github_proxy.py:39-71 | definition of `ensure_provider`; its meaning is stated by `ModeMergeOnlyIfAbsent`, `ProviderReplaced`, `ProviderTouchesOnlyItsPath`, `ProviderIdempotent` and `PatchesCommute` |
| ConfigPatch.PrimaryIsProxyModel | scripts/configure_github_proxy.py:27-29 | afterwards `agents.defaults.model.primary` is "github-proxy/claude-4.5-opus" |
| ConfigPatch.WithFallbackOnlyIfAbsent | scripts/configure_github_proxy.py:30-32 | a value already holding the fallback id is left alone; any value the step returns holds the id |
| ConfigPatch.FallbackAppendedOnce | scripts/configure_github_proxy.py:30-32 | a fallback list keeps its entries in order, gains at most one element, and only when the id is absent; afterwards it holds the id |
| ConfigPatch.FallbackPresentAfterPatch | scripts/configure_github_proxy.py:28-32 | afterwards the model section's `fallbacks` holds the fallback id |
| ConfigPatch.AllowedEntries | scripts/configure_github_proxy.py:34-36 | an existing fallback alias is kept, else it becomes "opus"; the primary's alias is "gh-opus"; other entries are untouched |
| ConfigPatch.AgentDefaultsTouchesOnlyItsPath | scripts/configure_github_proxy.py:26-36 | only `agents.defaults.model` and `agents.defaults.models` change: other keys of the configuration, of `agents`, of `agents.defaults` and of the model section (besides `primary` and `fallbacks`) keep their values |
| ConfigPatch.ModeMergeOnlyIfAbsent | scripts/configure_github_proxy.py:40-41 | `models.mode` becomes "merge" only when absent |
| ConfigPatch.ProviderReplaced | scripts/configure_github_proxy.py:42-71 | `providers["github-proxy"]` becomes the fixed record, and other providers are untouched |
| ConfigPatch.ProviderTouchesOnlyItsPath | scripts/configure_github_proxy.py:39-71 | only the top-level `models` block changes, and in it only `mode` and `providers` |
| ConfigPatch.PatchedModelIdempotent | scripts/configure_github_proxy.py:28-32 | patching the model section twice equals patching it once |
| ConfigPatch.PatchedAllowedIdempotent | scripts/configure_github_proxy.py:34-36 | patching the allow-list twice equals patching it once |
| ConfigPatch.AgentDefaultsIdempotent | scripts/configure_github_proxy.py:26-36 | `ensure_agent_defaults` twice equals once |
| ConfigPatch.ProviderIdempotent | scripts/configure_github_proxy.py:39-71 | `ensure_provider` twice equals once |
| ConfigPatch.PatchesCommute | scripts/configure_github_proxy.py:74-78 | the two patches edit disjoint parts, so their order does not matter |
| ConfigPatch.FreshConfigPatched | scripts/configure_github_proxy.py:26-71 | a configuration without `agents` and `models` is always patched successfully |

## Left out

- **Web plumbing.** Flask routing and the `OPTIONS` answer are left out. So are `Response`/`jsonify` construction, headers, `/health`, `/v1/models`, `/` and the banner. A request body that is not a JSON object, or that `get_json` rejects, is left out for the token-budget proxy.
- **Network I/O.** `requests.post`, `iter_lines` and `call_github_models` become the `Upstream` parameter: a status, the text, the delivered lines and an optional failure. `utf-8` decoding errors of a line count as that failure; the token-budget proxy catches it, the OpenRouter proxy does not (see below).
- **Configuration loading and the uuid/clock.** `load_config`, the environment and SSL setup, and `load_config`/`write_config`/`main` of the configuration script are file and environment I/O. `uuid.uuid4` and `time.time` are parameters of the handler.
- **Real JSON parsing, serialisation and `str()`.** These are the uninterpreted `Codec` functions. Dictionary key order is not modelled, so the serialised text of two equal objects is the same.
- **Partial edits.** Where Python raises half-way through `truncate_request` or a configuration patch, the model reports failure with the input unchanged. Python leaves the earlier in-place edits behind, but the handler then answers 500 and `main` exits without writing, so they are never observed.
- **Side output.** `print`, `logging`, `traceback` and `app.run(threaded=True)` are side output and concurrency. The `len(...)` calls inside the handler's prints raise only on values that truncation rejects anyway.
- **Case folding.** `.lower()` folds only ASCII letters.
- ProxyTruncate.ToolsOf: a non-empty string or object given as `tools` is treated as a failure. Python would sum `json.dumps` of its characters or keys, and would cap a string of more than 10 characters to its first 10.
- ProxyResponse.StreamFrames: reading the body of a non-200 answer (`resp.text`) is taken to succeed. If it raised, `generate()` would yield a "Proxy error: …" chunk and the sentinel instead of the "Error: <status>" chunk; the `Upstream` value has no way to express that failure.
- OpenRouter.ChatCompletions: a failure while iterating or decoding the upstream stream is not caught by `stream_response`, so the streamed reply is cut off after the frames already sent. The model's reply holds exactly those frames and does not mark that the response was aborted.
