/** The tool executor: runs the tool calls an assistant turn requests, in
    request order, and turns each result into a `tool` message. A request
    naming an unknown tool, or whose arguments do not parse, is skipped
    silently; an error raised by a tool itself propagates. */
module ToolService {
  import opened Wrappers
  import opened Json
  import opened Models

  /** `JSON.parse`: the parsed value, or `None` where it throws. */
  type JsonParser = string -> Option<Json>

  /** `tools.find(t => t.name === name)`, given as the index of the tool found. */
  function FindTool(tools: seq<Tool>, name: string): (r: Option<nat>)
    ensures r.Some? ==> r.value < |tools| && tools[r.value].name == name
    ensures r.Some? ==> forall j :: 0 <= j < r.value ==> tools[j].name != name
    ensures r.None? ==> forall j :: 0 <= j < |tools| ==> tools[j].name != name
  {
    if |tools| == 0 then None
    else if tools[0].name == name then Some(0)
    else match FindTool(tools[1..], name)
      case None => None
      case Some(i) => Some(i + 1)
  }

  /** A request that reaches its tool: the tool exists and the arguments parse. */
  predicate Runnable(c: ToolCall, tools: seq<Tool>, parseJson: JsonParser) {
    FindTool(tools, c.name).Some? && parseJson(c.arguments).Some?
  }

  /** The outcome of executing a runnable request's tool on its parsed arguments. */
  function Invoke(c: ToolCall, tools: seq<Tool>, parseJson: JsonParser): Result<string, Error>
    requires Runnable(c, tools, parseJson)
  {
    tools[FindTool(tools, c.name).value].execute(parseJson(c.arguments).value)
  }

  /** What one request contributes: nothing, one tool message, or an error. */
  function RunCall(c: ToolCall, tools: seq<Tool>, parseJson: JsonParser): Result<seq<Message>, Error> {
    if !Runnable(c, tools, parseJson) then Success([])
    else match Invoke(c, tools, parseJson)
      case Failure(e) => Failure(e)
      case Success(out) => Success([ToolMessage(out, c.toolCallId)])
  }

  /** Sequencing of two stretches of requests: the first error wins, otherwise
      the messages are concatenated. */
  function Then(first: Result<seq<Message>, Error>, second: Result<seq<Message>, Error>): Result<seq<Message>, Error> {
    match first
    case Failure(e) => Failure(e)
    case Success(a) =>
      match second
      case Failure(e) => Failure(e)
      case Success(b) => Success(a + b)
  }

  /** The requests run one after the other, in order. */
  function RunCalls(calls: seq<ToolCall>, tools: seq<Tool>, parseJson: JsonParser): (r: Result<seq<Message>, Error>)
    ensures r.Success? ==> |r.value| <= |calls|
    ensures r.Success? ==> forall j :: 0 <= j < |r.value| ==> r.value[j].ToolMessage?
  {
    if |calls| == 0 then Success([])
    else Then(RunCalls(calls[..|calls| - 1], tools, parseJson), RunCall(calls[|calls| - 1], tools, parseJson))
  }

  /** The tool messages `executeToolCalls` resolves to, or the error it rejects with. */
  function ToolMessages(message: AssistantTurn, tools: seq<Tool>, parseJson: JsonParser): Result<seq<Message>, Error> {
    if message.toolCalls.None? then Success([]) else RunCalls(message.toolCalls.value, tools, parseJson)
  }

  /** `ToolService.executeToolCalls`. */
  method ExecuteToolCalls(message: AssistantTurn, tools: seq<Tool>, parseJson: JsonParser)
    returns (r: Result<seq<Message>, Error>)
    ensures r == ToolMessages(message, tools, parseJson)
    ensures message.toolCalls.None? ==> r == Success([])
    ensures r.Success? && message.toolCalls.Some? ==> |r.value| <= |message.toolCalls.value|
  {
    var toolMessages: seq<Message> := [];
    if message.toolCalls.None? {
      return Success(toolMessages);
    }
    var calls := message.toolCalls.value;
    for i := 0 to |calls|
      invariant RunCalls(calls[..i], tools, parseJson) == Success(toolMessages)
    {
      var toolCall := calls[i];
      assert calls[..i + 1][..i] == calls[..i];
      assert RunCalls(calls[..i + 1], tools, parseJson) == Then(Success(toolMessages), RunCall(toolCall, tools, parseJson));
      var tool := FindTool(tools, toolCall.name);
      if tool.None? {
        assert !Runnable(toolCall, tools, parseJson);
        assert toolMessages + [] == toolMessages;
        continue;
      }
      var toolParameters := parseJson(toolCall.arguments);
      if toolParameters.None? {
        assert !Runnable(toolCall, tools, parseJson);
        assert toolMessages + [] == toolMessages;
        continue;
      }
      var toolResponse := tools[tool.value].execute(toolParameters.value);
      if toolResponse.Failure? {
        RunCallsAppend(calls[..i + 1], calls[i + 1..], tools, parseJson);
        assert calls[..i + 1] + calls[i + 1..] == calls;
        return Failure(toolResponse.error);
      }
      toolMessages := toolMessages + [ToolMessage(toolResponse.value, toolCall.toolCallId)];
    }
    assert calls[..|calls|] == calls;
    return Success(toolMessages);
  }

  // ----- Properties of the executor -----

  /** Running a concatenation of requests is running the two stretches in turn. */
  lemma {:induction false} RunCallsAppend(a: seq<ToolCall>, b: seq<ToolCall>, tools: seq<Tool>, parseJson: JsonParser)
    ensures RunCalls(a + b, tools, parseJson) == Then(RunCalls(a, tools, parseJson), RunCalls(b, tools, parseJson))
    decreases |b|
  {
    if |b| == 0 {
      assert a + b == a;
      match RunCalls(a, tools, parseJson) {
        case Failure(_) =>
        case Success(ms) => assert ms + [] == ms;
      }
    } else {
      var b' := b[..|b| - 1];
      assert (a + b)[..|a + b| - 1] == a + b';
      assert (a + b)[|a + b| - 1] == b[|b| - 1];
      RunCallsAppend(a, b', tools, parseJson);
      match RunCalls(a, tools, parseJson) {
        case Failure(_) =>
        case Success(x) =>
          match RunCalls(b', tools, parseJson) {
            case Failure(_) =>
            case Success(y) =>
              match RunCall(b[|b| - 1], tools, parseJson) {
                case Failure(_) =>
                case Success(z) => assert x + y + z == x + (y + z);
              }
          }
      }
    }
  }

  /** A request whose name matches no tool leaves no trace: no message, no error. */
  lemma UnknownToolSkipped(pre: seq<ToolCall>, c: ToolCall, post: seq<ToolCall>, tools: seq<Tool>, parseJson: JsonParser)
    requires forall t :: t in tools ==> t.name != c.name
    ensures RunCalls(pre + [c] + post, tools, parseJson) == RunCalls(pre + post, tools, parseJson)
  {
    SkippedRequestLeavesNoTrace(pre, c, post, tools, parseJson);
  }

  /** A request whose arguments `JSON.parse` rejects leaves no trace either, even
      when its tool exists. */
  lemma UnparsableArgumentsSkipped(pre: seq<ToolCall>, c: ToolCall, post: seq<ToolCall>, tools: seq<Tool>, parseJson: JsonParser)
    requires parseJson(c.arguments).None?
    ensures RunCalls(pre + [c] + post, tools, parseJson) == RunCalls(pre + post, tools, parseJson)
  {
    SkippedRequestLeavesNoTrace(pre, c, post, tools, parseJson);
  }

  lemma SkippedRequestLeavesNoTrace(pre: seq<ToolCall>, c: ToolCall, post: seq<ToolCall>, tools: seq<Tool>, parseJson: JsonParser)
    requires !Runnable(c, tools, parseJson)
    ensures RunCalls(pre + [c] + post, tools, parseJson) == RunCalls(pre + post, tools, parseJson)
  {
    RunCallsAppend(pre + [c], post, tools, parseJson);
    RunCallsAppend(pre, [c], tools, parseJson);
    RunCallsAppend(pre, post, tools, parseJson);
    assert [c][..0] == [];
    match RunCalls(pre, tools, parseJson) {
      case Failure(_) =>
      case Success(ms) => assert ms + [] == ms;
    }
  }

  /** The indices of the runnable requests, in increasing order. */
  function RunnableIndices(calls: seq<ToolCall>, tools: seq<Tool>, parseJson: JsonParser): (r: seq<nat>)
    ensures forall j :: 0 <= j < |r| ==> r[j] < |calls| && Runnable(calls[r[j]], tools, parseJson)
    ensures forall j, k :: 0 <= j < k < |r| ==> r[j] < r[k]
    ensures forall i :: 0 <= i < |calls| && Runnable(calls[i], tools, parseJson) ==> i in r
  {
    if |calls| == 0 then []
    else
      var n := |calls| - 1;
      var earlier := RunnableIndices(calls[..n], tools, parseJson);
      if Runnable(calls[n], tools, parseJson) then earlier + [n] else earlier
  }

  /** Message `m` is what request `c` emits: `c` reaches its tool, the tool
      returns `m`'s content, and `m` carries `c`'s id. */
  predicate Emits(c: ToolCall, m: Message, tools: seq<Tool>, parseJson: JsonParser) {
    && Runnable(c, tools, parseJson)
    && m.ToolMessage?
    && m.toolCallId == c.toolCallId
    && Invoke(c, tools, parseJson) == Success(m.toolContent)
  }

  /** A successful run emits exactly one message per runnable request, in
      request order: the message carries that request's id and the result of
      that request's tool on its parsed arguments. */
  lemma {:induction false} EmittedInRequestOrder(calls: seq<ToolCall>, tools: seq<Tool>, parseJson: JsonParser, ms: seq<Message>)
    requires RunCalls(calls, tools, parseJson) == Success(ms)
    ensures |ms| == |RunnableIndices(calls, tools, parseJson)|
    ensures forall j :: 0 <= j < |ms| ==> Emits(calls[RunnableIndices(calls, tools, parseJson)[j]], ms[j], tools, parseJson)
  {
    if |calls| > 0 {
      var n := |calls| - 1;
      var prefix := calls[..n];
      var r0 := RunCalls(prefix, tools, parseJson);
      var r1 := RunCall(calls[n], tools, parseJson);
      assert r0.Success? && r1.Success? && ms == r0.value + r1.value by {
        assert RunCalls(calls, tools, parseJson) == Then(r0, r1);
      }
      EmittedInRequestOrder(prefix, tools, parseJson, r0.value);
      EmittedStep(calls, tools, parseJson, r0.value, r1.value);
    }
  }

  /** The inductive step of `EmittedInRequestOrder`: appending the last request. */
  lemma EmittedStep(calls: seq<ToolCall>, tools: seq<Tool>, parseJson: JsonParser, ms0: seq<Message>, last: seq<Message>)
    requires |calls| > 0
    requires RunCall(calls[|calls| - 1], tools, parseJson) == Success(last)
    requires |ms0| == |RunnableIndices(calls[..|calls| - 1], tools, parseJson)|
    requires forall j :: 0 <= j < |ms0| ==>
               Emits(calls[..|calls| - 1][RunnableIndices(calls[..|calls| - 1], tools, parseJson)[j]], ms0[j], tools, parseJson)
    ensures |ms0 + last| == |RunnableIndices(calls, tools, parseJson)|
    ensures forall j :: 0 <= j < |ms0 + last| ==>
              Emits(calls[RunnableIndices(calls, tools, parseJson)[j]], (ms0 + last)[j], tools, parseJson)
  {
    var n := |calls| - 1;
    var prefix := calls[..n];
    var idx := RunnableIndices(calls, tools, parseJson);
    var idx0 := RunnableIndices(prefix, tools, parseJson);
    var ms := ms0 + last;
    if Runnable(calls[n], tools, parseJson) {
      assert idx == idx0 + [n];
    } else {
      assert idx == idx0 && last == [];
    }
    forall j | 0 <= j < |ms|
      ensures Emits(calls[idx[j]], ms[j], tools, parseJson)
    {
      if j < |ms0| {
        assert idx[j] == idx0[j] && ms[j] == ms0[j];
        assert calls[idx0[j]] == prefix[idx0[j]];
      }
    }
  }

  /** A failed run failed at a runnable request whose tool raised that error,
      after every request before it had run successfully. */
  lemma {:induction false} FailureFromFirstFailingTool(calls: seq<ToolCall>, tools: seq<Tool>, parseJson: JsonParser)
    requires RunCalls(calls, tools, parseJson).Failure?
    ensures exists i :: 0 <= i < |calls| && Runnable(calls[i], tools, parseJson)
                        && Invoke(calls[i], tools, parseJson) == Failure(RunCalls(calls, tools, parseJson).error)
                        && RunCalls(calls[..i], tools, parseJson).Success?
  {
    var n := |calls| - 1;
    var prefix := calls[..n];
    if RunCalls(prefix, tools, parseJson).Failure? {
      FailureFromFirstFailingTool(prefix, tools, parseJson);
      var i :| 0 <= i < |prefix| && Runnable(prefix[i], tools, parseJson)
               && Invoke(prefix[i], tools, parseJson) == Failure(RunCalls(prefix, tools, parseJson).error)
               && RunCalls(prefix[..i], tools, parseJson).Success?;
      assert prefix[..i] == calls[..i];
      assert calls[i] == prefix[i];
    } else {
      assert calls[..n] == prefix;
    }
  }
}
