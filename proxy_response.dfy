/** How the GitHub Models proxy hands the upstream answer back: a plain
    reply with the model id rewritten, or a stream of server-sent-event
    frames rebuilt line by line by `generate()`. */
module ProxyResponse {
  import opened Json
  import opened Text

  // ---------------------------------------------------------------------
  // Non-streaming
  // ---------------------------------------------------------------------

  /** `non_streaming_response`. `model` is the id the caller asked for. A
      non-200 status is passed through with the raw text. On 200 the body is
      decoded and `result["model"] = model` runs when `"model" in result`:
      for an object that is a key test, for a list a membership test and for
      a string a substring test, and assigning into a list or a string then
      raises; `in` on a number, a boolean or null raises too. */
  function NonStreamingReply(upstream: Upstream, model: Json, codec: Codec): Reply {
    match upstream
    case Unreachable(_) => ServerError
    case Answered(status, text, _, _) =>
      if status != 200 then RawReply(status, text)
      else
        match codec.loads(text)
        case None => ServerError
        case Some(result) =>
          match result
          case JObj(fields) =>
            if "model" in fields then JsonReply(200, JObj(fields["model" := model]))
            else JsonReply(200, result)
          case JArr(items) => if JStr("model") in items then ServerError else JsonReply(200, result)
          case JStr(s) => if Contains(s, "model") then ServerError else JsonReply(200, result)
          case _ => ServerError
  }

  /** A failed upstream call is answered with its own status and text. */
  lemma ErrorStatusPassedThrough(upstream: Upstream, model: Json, codec: Codec)
    requires upstream.Answered? && upstream.status != 200
    ensures NonStreamingReply(upstream, model, codec) == RawReply(upstream.status, upstream.text)
  {
  }

  /** On success the decoded object comes back with the same keys and
      values, except that an existing `model` now holds the requested id;
      a body without `model` does not gain one. */
  lemma ModelRewrittenOnlyIfPresent(upstream: Upstream, model: Json, codec: Codec, fields: map<string, Json>)
    requires upstream.Answered? && upstream.status == 200
    requires codec.loads(upstream.text) == Some(JObj(fields))
    ensures var reply := NonStreamingReply(upstream, model, codec);
      && reply.JsonReply? && reply.status == 200 && reply.body.JObj?
      && reply.body.fields.Keys == fields.Keys
      && ("model" in fields ==> reply.body.fields["model"] == model)
      && (forall k :: k in fields && k != "model" ==> reply.body.fields[k] == fields[k])
  {
  }

  /** Whatever the upstream sent, a successful reply is status 200. */
  lemma JsonReplyIsOk(upstream: Upstream, model: Json, codec: Codec)
    requires NonStreamingReply(upstream, model, codec).JsonReply?
    ensures NonStreamingReply(upstream, model, codec).status == 200
    ensures upstream.Answered? && upstream.status == 200 && codec.loads(upstream.text).Some?
  {
  }

  // ---------------------------------------------------------------------
  // Streaming
  // ---------------------------------------------------------------------

  /** What `generate()` fixes once for a whole stream: the chunk id built
      from a fresh uuid, the creation time in whole seconds, and the model
      id the caller asked for. */
  datatype Stamp = Stamp(chunkId: string, created: int, model: Json)

  /** A `chat.completion.chunk` object as `generate()` builds it: the
      stream's id, timestamp and model, the upstream choices, and the
      upstream usage when the event had one. */
  datatype Chunk = Chunk(id: string, created: int, model: Json, choices: Json, usage: Option<Json>)

  /** The chunk as the JSON object that is serialised. */
  function ChunkObject(c: Chunk): map<string, Json> {
    var base := map[
      "id" := JStr(c.id),
      "object" := JStr("chat.completion.chunk"),
      "created" := JNum(c.created as real),
      "model" := c.model,
      "choices" := c.choices];
    if c.usage.Some? then base["usage" := c.usage.value] else base
  }

  /** One outgoing event: a chunk, or the `[DONE]` sentinel. */
  datatype Frame = Data(chunk: Chunk) | Done

  const DoneText: string := "data: [DONE]\n\n"

  /** `f"data: {json.dumps(chunk)}\n\n"`, or the sentinel. */
  function Render(f: Frame, codec: Codec): string {
    match f
    case Data(chunk) => "data: " + codec.dumps(JObj(ChunkObject(chunk))) + "\n\n"
    case Done => DoneText
  }

  function RenderAll(fs: seq<Frame>, codec: Codec): (r: seq<string>)
    ensures |r| == |fs|
    ensures forall i :: 0 <= i < |fs| ==> r[i] == Render(fs[i], codec)
  {
    if fs == [] then [] else RenderAll(fs[..|fs| - 1], codec) + [Render(fs[|fs| - 1], codec)]
  }

  /** Rendering works frame by frame. */
  lemma {:induction false} RenderAllConcat(a: seq<Frame>, b: seq<Frame>, codec: Codec)
    ensures RenderAll(a + b, codec) == RenderAll(a, codec) + RenderAll(b, codec)
  {
    assert |RenderAll(a + b, codec)| == |RenderAll(a, codec) + RenderAll(b, codec)|;
    forall i | 0 <= i < |a + b|
      ensures RenderAll(a + b, codec)[i] == (RenderAll(a, codec) + RenderAll(b, codec))[i]
    {
      if i >= |a| {
        assert (a + b)[i] == b[i - |a|];
      }
    }
  }

  /** A chunk of this stream. */
  function StampedChunk(stamp: Stamp, choices: Json, usage: Option<Json>): Chunk {
    Chunk(stamp.chunkId, stamp.created, stamp.model, choices, usage)
  }

  /** The single choice of a synthetic chunk: the message as content, and
      finish reason "stop". */
  function ErrorChoices(message: string): Json {
    JArr([JObj(map[
      "index" := JNum(0.0),
      "delta" := JObj(map["content" := JStr(message)]),
      "finish_reason" := JStr("stop")])])
  }

  /** The synthetic chunk that reports an error as ordinary content. */
  function ErrorChunk(stamp: Stamp, message: string): Chunk {
    StampedChunk(stamp, ErrorChoices(message), None)
  }

  /** An error chunk followed by the sentinel. */
  function ErrorFrames(stamp: Stamp, message: string): seq<Frame> {
    [Data(ErrorChunk(stamp, message)), Done]
  }

  /** The two texts of an error pair. */
  lemma ErrorFramesRendered(stamp: Stamp, message: string, codec: Codec)
    ensures RenderAll(ErrorFrames(stamp, message), codec) == [Render(Data(ErrorChunk(stamp, message)), codec), DoneText]
  {
    assert ErrorFrames(stamp, message)[..1] == [Data(ErrorChunk(stamp, message))];
  }

  /** What one upstream line does to the loop of `generate()`. */
  datatype Step =
    | Skip                            // `continue`, or a payload json.loads rejects
    | Emit(chunk: Chunk)              // one chunk frame
    | Finish                          // the sentinel, then `break`
    | Abort(error: string)            // an exception escapes the loop body

  /** One pass of the loop body. A decoded payload that is not an object
      has no `.get`, and the AttributeError leaves the loop. */
  function LineStep(line: string, stamp: Stamp, codec: Codec): (r: Step)
    ensures r.Emit? ==> StampedBy(r.chunk, stamp)
  {
    if line == "" || !StartsWith(line, "data: ") then Skip
    else
      var content := line[6..];
      if content == "[DONE]" then Finish
      else
        match codec.loads(content)
        case None => Skip
        case Some(parsed) =>
          if !parsed.JObj? then Abort(codec.noGetError(parsed))
          else
            var choices := Get(parsed.fields, "choices", JArr([]));
            if !Truthy(choices) then Skip
            else if "usage" in parsed.fields then Emit(StampedChunk(stamp, choices, Some(parsed.fields["usage"])))
            else Emit(StampedChunk(stamp, choices, None))
  }

  /** The steps of the lines, built line by line as `iter_lines` delivers
      them: there is one step per line, and the step at each position is
      the step of the line there. */
  function Steps(lines: seq<string>, stamp: Stamp, codec: Codec): (r: seq<Step>)
    ensures |r| == |lines|
    ensures forall i :: 0 <= i < |lines| ==> r[i] == LineStep(lines[i], stamp, codec)
  {
    if lines == [] then []
    else Steps(lines[..|lines| - 1], stamp, codec) + [LineStep(lines[|lines| - 1], stamp, codec)]
  }

  /** A step that leaves the loop. */
  predicate Ends(step: Step) {
    step.Finish? || step.Abort?
  }

  /** The frames one step yields by itself. */
  function StepOut(step: Step, stamp: Stamp): seq<Frame> {
    match step
    case Skip => []
    case Emit(chunk) => [Data(chunk)]
    case Finish => [Done]
    case Abort(error) => ErrorFrames(stamp, "Proxy error: " + error)
  }

  /** The frames the loop yields for a run of steps, up to and including
      the one that leaves it. */
  function Frames(steps: seq<Step>, stamp: Stamp): seq<Frame>
    decreases |steps|
  {
    if steps == [] then []
    else
      match steps[0]
      case Skip => Frames(steps[1..], stamp)
      case Emit(chunk) => [Data(chunk)] + Frames(steps[1..], stamp)
      case Finish => [Done]
      case Abort(error) => ErrorFrames(stamp, "Proxy error: " + error)
  }

  /** The frames the loop yields for the lines upstream delivered. */
  function LineFrames(lines: seq<string>, stamp: Stamp, codec: Codec): seq<Frame> {
    Frames(Steps(lines, stamp, codec), stamp)
  }

  /** The frames end with the sentinel. */
  predicate Stopped(fs: seq<Frame>) {
    |fs| > 0 && fs[|fs| - 1] == Done
  }

  /** Everything `generate()` yields. A call that fails before a status
      arrives, or an iteration that raises before the loop stopped, is
      reported by an error chunk and the sentinel. */
  function StreamFrames(upstream: Upstream, stamp: Stamp, codec: Codec): seq<Frame> {
    match upstream
    case Unreachable(error) => ErrorFrames(stamp, "Proxy error: " + error)
    case Answered(status, _, lines, failure) =>
      if status != 200 then ErrorFrames(stamp, "Error: " + Decimal(status))
      else
        var fs := LineFrames(lines, stamp, codec);
        if failure.Some? && !Stopped(fs) then fs + ErrorFrames(stamp, "Proxy error: " + failure.value)
        else fs
  }

  /** `generate()`: the frames it yields, in order, as text. */
  method Generate(upstream: Upstream, stamp: Stamp, codec: Codec) returns (out: seq<string>)
    ensures out == RenderAll(StreamFrames(upstream, stamp, codec), codec)
  {
    if upstream.Unreachable? {
      out := [Render(Data(ErrorChunk(stamp, "Proxy error: " + upstream.error)), codec), DoneText];
      return;
    }
    if upstream.status != 200 {
      var message := "Error: " + Decimal(upstream.status);
      out := [Render(Data(ErrorChunk(stamp, message)), codec), DoneText];
      ErrorFramesRendered(stamp, message, codec);
      return;
    }
    var stopped;
    out, stopped := ReframeLines(upstream.lines, stamp, codec);
    if !stopped && upstream.failure.Some? {
      var frames := ErrorFrames(stamp, "Proxy error: " + upstream.failure.value);
      RenderAllConcat(LineFrames(upstream.lines, stamp, codec), frames, codec);
      out := out + [Render(frames[0], codec), DoneText];
    }
  }

  /** The loop over `iter_lines`: the frames it yields as text, and whether
      it stopped, at the sentinel or at an exception, rather than running
      out of lines. */
  method ReframeLines(lines: seq<string>, stamp: Stamp, codec: Codec) returns (out: seq<string>, stopped: bool)
    ensures out == RenderAll(LineFrames(lines, stamp, codec), codec)
    ensures stopped == Stopped(LineFrames(lines, stamp, codec))
  {
    ghost var steps := Steps(lines, stamp, codec);
    ghost var yielded: seq<Frame> := [];
    out := [];
    var i := 0;
    assert steps[0..] == steps;
    while i < |lines|
      invariant 0 <= i <= |lines|
      invariant Frames(steps, stamp) == yielded + Frames(steps[i..], stamp)
      invariant !Stopped(yielded)
      invariant out == RenderAll(yielded, codec)
    {
      var step := HandleLine(lines[i], stamp, codec);
      Advance(steps, i, yielded, stamp);
      var frames := StepOut(step, stamp);
      StepOutStops(yielded, step, stamp);
      RenderAllConcat(yielded, frames, codec);
      out := out + RenderAll(frames, codec);
      yielded := yielded + frames;
      i := i + 1;
      if Ends(step) {
        return out, true;
      }
    }
    assert steps[i..] == [];
    return out, false;
  }

  /** One turn of the loop: the frames of step `i` extend what was yielded,
      and the frames still to come are those of the steps after it unless
      step `i` left the loop. */
  lemma Advance(steps: seq<Step>, i: nat, yielded: seq<Frame>, stamp: Stamp)
    requires i < |steps|
    requires Frames(steps, stamp) == yielded + Frames(steps[i..], stamp)
    ensures !Ends(steps[i]) ==>
      Frames(steps, stamp) == (yielded + StepOut(steps[i], stamp)) + Frames(steps[i + 1..], stamp)
    ensures Ends(steps[i]) ==> Frames(steps, stamp) == yielded + StepOut(steps[i], stamp)
  {
    FramesAt(steps, i, stamp);
    if Ends(steps[i]) {
      AppendNothing(StepOut(steps[i], stamp));
    } else {
      AppendAssociates(yielded, StepOut(steps[i], stamp), Frames(steps[i + 1..], stamp));
    }
  }

  /** `AppendNothing` and `AppendAssociates` state two sequence identities
      on their own, so that `Advance` uses each one as a single fact
      instead of leaving the solver to find it among the loop's terms. */
  lemma AppendNothing(fs: seq<Frame>)
    ensures fs + [] == fs
  {
  }

  lemma AppendAssociates(a: seq<Frame>, b: seq<Frame>, c: seq<Frame>)
    ensures a + (b + c) == (a + b) + c
  {
  }

  /** After a step's frames the output ends with the sentinel exactly
      when the step left the loop. */
  lemma StepOutStops(yielded: seq<Frame>, step: Step, stamp: Stamp)
    requires !Stopped(yielded)
    ensures Stopped(yielded + StepOut(step, stamp)) <==> Ends(step)
  {
    if step.Skip? {
      assert yielded + StepOut(step, stamp) == yielded;
    }
  }

  /** The frames from step `i` on: those of step `i`, then, unless it
      leaves the loop, those of the steps after it. */
  lemma FramesAt(steps: seq<Step>, i: nat, stamp: Stamp)
    requires i < |steps|
    ensures Frames(steps[i..], stamp)
         == StepOut(steps[i], stamp) + (if Ends(steps[i]) then [] else Frames(steps[i + 1..], stamp))
  {
    assert steps[i..][0] == steps[i];
    assert steps[i..][1..] == steps[i + 1..];
  }

  /** The body of the loop over `iter_lines` for one line, with its early
      `continue`, `break` and exception exits: skip it, emit one chunk,
      stop at the sentinel, or leave through an exception. `LineStep` is
      its specification. */
  method HandleLine(line: string, stamp: Stamp, codec: Codec) returns (step: Step)
    ensures step == LineStep(line, stamp, codec)
  {
    if line == "" {
      return Skip;
    }
    if !StartsWith(line, "data: ") {
      return Skip;
    }
    var content := line[6..];
    if content == "[DONE]" {
      return Finish;
    }
    var parsed := codec.loads(content);
    if parsed.None? {
      return Skip;
    }
    if !parsed.value.JObj? {
      return Abort(codec.noGetError(parsed.value));
    }
    var choices := Get(parsed.value.fields, "choices", JArr([]));
    if !Truthy(choices) {
      return Skip;
    }
    var usage := None;
    if "usage" in parsed.value.fields {
      usage := Some(parsed.value.fields["usage"]);
    }
    return Emit(StampedChunk(stamp, choices, usage));
  }

  /** The loop emits nothing after the sentinel: `Done` can only be the
      last frame, and it is there exactly when some step left the loop. */
  lemma {:induction false} FramesShape(steps: seq<Step>, stamp: Stamp)
    ensures var fs := Frames(steps, stamp);
      forall i :: 0 <= i < |fs| - 1 ==> fs[i].Data?
    ensures Stopped(Frames(steps, stamp)) <==> exists i :: 0 <= i < |steps| && Ends(steps[i])
    decreases |steps|
  {
    if steps != [] {
      var rest := steps[1..];
      FramesShape(rest, stamp);
      if steps[0].Emit? {
        var fs := [Data(steps[0].chunk)] + Frames(rest, stamp);
        forall i | 0 < i < |fs| - 1 ensures fs[i].Data? {
          assert fs[i] == Frames(rest, stamp)[i - 1];
        }
      }
      if exists i :: 0 <= i < |steps| && Ends(steps[i]) {
        var i :| 0 <= i < |steps| && Ends(steps[i]);
        if i > 0 {
          assert Ends(rest[i - 1]);
        }
      }
      if exists i :: 0 <= i < |rest| && Ends(rest[i]) {
        var i :| 0 <= i < |rest| && Ends(rest[i]);
        assert Ends(steps[i + 1]);
      }
    }
  }

  /** No frame ever follows the sentinel. */
  lemma DoneOnlyLast(upstream: Upstream, stamp: Stamp, codec: Codec)
    ensures var fs := StreamFrames(upstream, stamp, codec);
      forall i :: 0 <= i < |fs| - 1 ==> fs[i].Data?
  {
    if upstream.Answered? && upstream.status == 200 {
      FramesShape(Steps(upstream.lines, stamp, codec), stamp);
    }
  }

  /** The stream ends with the sentinel unless upstream closes cleanly
      without sending one: then the last frame is an ordinary chunk, or
      nothing was sent at all. */
  lemma EndsWithDoneUnlessCleanClose(upstream: Upstream, stamp: Stamp, codec: Codec)
    ensures Stopped(StreamFrames(upstream, stamp, codec)) <==>
      !(upstream.Answered? && upstream.status == 200 && upstream.failure.None?
        && forall i :: 0 <= i < |upstream.lines| ==> !Ends(LineStep(upstream.lines[i], stamp, codec)))
  {
    if upstream.Answered? && upstream.status == 200 {
      var steps := Steps(upstream.lines, stamp, codec);
      FramesShape(steps, stamp);
      if exists i :: 0 <= i < |steps| && Ends(steps[i]) {
        var i :| 0 <= i < |steps| && Ends(steps[i]);
        assert Ends(LineStep(upstream.lines[i], stamp, codec));
      }
    }
  }

  /** A chunk carries the stream's id, timestamp and requested model. */
  predicate StampedBy(chunk: Chunk, stamp: Stamp) {
    chunk.id == stamp.chunkId && chunk.created == stamp.created && chunk.model == stamp.model
  }

  lemma {:induction false} FramesStamped(steps: seq<Step>, stamp: Stamp)
    requires forall i :: 0 <= i < |steps| && steps[i].Emit? ==> StampedBy(steps[i].chunk, stamp)
    ensures var fs := Frames(steps, stamp);
      forall i :: 0 <= i < |fs| && fs[i].Data? ==> StampedBy(fs[i].chunk, stamp)
    decreases |steps|
  {
    if steps != [] {
      var rest := steps[1..];
      assert forall i :: 0 <= i < |rest| ==> rest[i] == steps[i + 1];
      FramesStamped(rest, stamp);
      match steps[0]
      case Skip =>
        assert Frames(steps, stamp) == Frames(rest, stamp);
      case Emit(chunk) =>
        assert StampedBy(chunk, stamp);
        var fs := [Data(chunk)] + Frames(rest, stamp);
        forall i | 0 <= i < |fs| && fs[i].Data? ensures StampedBy(fs[i].chunk, stamp) {
          if i > 0 {
            assert fs[i] == Frames(rest, stamp)[i - 1];
          }
        }
      case Finish =>
      case Abort(error) =>
        assert StampedBy(ErrorChunk(stamp, "Proxy error: " + error), stamp);
    }
  }

  /** Every chunk the stream yields, error chunks included, carries the
      stream's id and timestamp and the requested model. */
  lemma EveryChunkStamped(upstream: Upstream, stamp: Stamp, codec: Codec)
    ensures var fs := StreamFrames(upstream, stamp, codec);
      forall i :: 0 <= i < |fs| && fs[i].Data? ==> StampedBy(fs[i].chunk, stamp)
  {
    match upstream
    case Unreachable(error) =>
      assert StampedBy(ErrorChunk(stamp, "Proxy error: " + error), stamp);
    case Answered(status, _, lines, failure) =>
      if status != 200 {
        assert StampedBy(ErrorChunk(stamp, "Error: " + Decimal(status)), stamp);
      } else {
        var fs := LineFrames(lines, stamp, codec);
        var steps := Steps(lines, stamp, codec);
        FramesStamped(steps, stamp);
        assert fs == Frames(steps, stamp);
        if failure.Some? && !Stopped(fs) {
          var error := ErrorFrames(stamp, "Proxy error: " + failure.value);
          assert StampedBy(error[0].chunk, stamp);
          forall i | 0 <= i < |fs + error| && (fs + error)[i].Data?
            ensures StampedBy((fs + error)[i].chunk, stamp)
          {
            if i >= |fs| {
              assert (fs + error)[i] == error[i - |fs|];
            } else {
              assert (fs + error)[i] == fs[i];
            }
          }
        }
      }
  }

  /** Once the loop has stopped, later steps change nothing. */
  lemma {:induction false} StoppedIgnoresRest(a: seq<Step>, b: seq<Step>, stamp: Stamp)
    requires Stopped(Frames(a, stamp))
    ensures Frames(a + b, stamp) == Frames(a, stamp)
    decreases |a|
  {
    assert (a + b)[0] == a[0];
    assert (a + b)[1..] == a[1..] + b;
    if a[0].Skip? || a[0].Emit? {
      StoppedIgnoresRest(a[1..], b, stamp);
    }
  }

  /** Before it stops, the loop works step by step: the frames of two runs
      of steps are the frames of each, one after the other. */
  lemma {:induction false} FramesConcat(a: seq<Step>, b: seq<Step>, stamp: Stamp)
    requires !Stopped(Frames(a, stamp))
    ensures Frames(a + b, stamp) == Frames(a, stamp) + Frames(b, stamp)
    decreases |a|
  {
    if a == [] {
      assert a + b == b;
    } else {
      assert (a + b)[0] == a[0];
      assert (a + b)[1..] == a[1..] + b;
      FramesConcat(a[1..], b, stamp);
    }
  }

  lemma StepsConcat(a: seq<string>, b: seq<string>, stamp: Stamp, codec: Codec)
    ensures Steps(a + b, stamp, codec) == Steps(a, stamp, codec) + Steps(b, stamp, codec)
  {
    assert forall i :: 0 <= i < |b| ==> (a + b)[|a| + i] == b[i];
  }

  /** Lines the loop skips (blank, not data, undecodable, no choices) emit
      nothing wherever they occur. */
  lemma SkippedLineEmitsNothing(a: seq<string>, line: string, b: seq<string>, stamp: Stamp, codec: Codec)
    requires LineStep(line, stamp, codec).Skip?
    ensures LineFrames(a + [line] + b, stamp, codec) == LineFrames(a + b, stamp, codec)
  {
    var sa, sb := Steps(a, stamp, codec), Steps(b, stamp, codec);
    var sl := Steps([line], stamp, codec);
    StepsConcat(a, [line] + b, stamp, codec);
    StepsConcat([line], b, stamp, codec);
    StepsConcat(a, b, stamp, codec);
    assert a + [line] + b == a + ([line] + b);
    assert (sl + sb)[1..] == sb;
    if Stopped(Frames(sa, stamp)) {
      StoppedIgnoresRest(sa, sl + sb, stamp);
      StoppedIgnoresRest(sa, sb, stamp);
    } else {
      FramesConcat(sa, sl + sb, stamp);
      FramesConcat(sa, sb, stamp);
    }
  }

  /** The `[DONE]` line ends the stream: the sentinel is yielded and no
      later line, and no later failure, adds anything. */
  lemma NothingAfterSentinel(before: seq<string>, after: seq<string>, text: string,
                             failure: Option<string>, stamp: Stamp, codec: Codec)
    requires !Stopped(LineFrames(before, stamp, codec))
    ensures StreamFrames(Answered(200, text, before + ["data: [DONE]"] + after, failure), stamp, codec)
         == LineFrames(before, stamp, codec) + [Done]
  {
    SentinelLineFrames(before, after, stamp, codec);
    var fs := LineFrames(before, stamp, codec) + [Done];
    assert Stopped(fs);
  }

  /** The line frames up to and including the `[DONE]` line. */
  lemma SentinelLineFrames(before: seq<string>, after: seq<string>, stamp: Stamp, codec: Codec)
    requires !Stopped(LineFrames(before, stamp, codec))
    ensures LineFrames(before + ["data: [DONE]"] + after, stamp, codec) == LineFrames(before, stamp, codec) + [Done]
  {
    var rest := ["data: [DONE]"] + after;
    assert before + ["data: [DONE]"] + after == before + rest;
    StepsConcat(before, rest, stamp, codec);
    var steps := Steps(rest, stamp, codec);
    assert "data: [DONE]"[6..] == "[DONE]";
    assert steps[0] == Finish;
    FramesConcat(Steps(before, stamp, codec), steps, stamp);
  }

  /** A decoded payload with choices becomes one chunk with those choices
      unchanged, and with `usage` exactly when the payload has it. */
  lemma ChunkKeepsChoicesAndUsage(line: string, fields: map<string, Json>, stamp: Stamp, codec: Codec)
    requires StartsWith(line, "data: ") && line[6..] != "[DONE]"
    requires codec.loads(line[6..]) == Some(JObj(fields))
    requires "choices" in fields && Truthy(fields["choices"])
    ensures LineStep(line, stamp, codec).Emit?
    ensures var obj := ChunkObject(LineStep(line, stamp, codec).chunk);
      && obj.Keys == {"id", "object", "created", "model", "choices"} + (if "usage" in fields then {"usage"} else {})
      && obj["choices"] == fields["choices"]
      && ("usage" in fields ==> obj["usage"] == fields["usage"])
  {
  }

  /** An upstream error status gives exactly two frames: a chunk saying
      "Error: <status>" that finishes with "stop", then the sentinel. */
  lemma ErrorStatusGivesTwoFrames(upstream: Upstream, stamp: Stamp, codec: Codec)
    requires upstream.Answered? && upstream.status != 200
    ensures var out := RenderAll(StreamFrames(upstream, stamp, codec), codec);
      |out| == 2 && out[1] == DoneText
    ensures var fs := StreamFrames(upstream, stamp, codec);
      && fs[0].Data?
      && fs[0].chunk.usage.None?
      && fs[0].chunk.choices == JArr([JObj(map[
           "index" := JNum(0.0),
           "delta" := JObj(map["content" := JStr("Error: " + Decimal(upstream.status))]),
           "finish_reason" := JStr("stop")])])
  {
  }

  /** Three upstream events, a chunk with one choice, a chunk with none and
      the sentinel, give one chunk frame and the sentinel. */
  lemma OneChoiceNoChoiceDone(one: string, none: string, choice: Json, stamp: Stamp, codec: Codec)
    requires StartsWith(one, "data: ") && one[6..] != "[DONE]"
    requires codec.loads(one[6..]) == Some(JObj(map["choices" := JArr([choice])]))
    requires StartsWith(none, "data: ") && none[6..] != "[DONE]"
    requires codec.loads(none[6..]) == Some(JObj(map["choices" := JArr([])]))
    ensures StreamFrames(Answered(200, "", [one, none, "data: [DONE]"], None), stamp, codec)
         == [Data(StampedChunk(stamp, JArr([choice]), None)), Done]
  {
    var steps := Steps([one, none, "data: [DONE]"], stamp, codec);
    assert "data: [DONE]"[6..] == "[DONE]";
    assert steps[0] == Emit(StampedChunk(stamp, JArr([choice]), None));
    assert steps[1] == Skip;
    assert steps[2] == Finish;
    assert steps[1..][1..] == [Finish];
    assert Frames(steps[1..], stamp) == [Done];
  }
}
