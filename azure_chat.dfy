/** The Azure OpenAI chat-completions wire format, and the parts of it that
    both generations of the Azure adapter treat identically: the tool
    payload, the tool-call payload of an assistant message, and the parsing
    of a completion. */
module AzureChat {
  import opened Wrappers
  import opened Json
  import opened Models

  // ----- The completion a provider answers with -----

  /** A tool call as the provider sends it: `{id, type, function: {name, arguments}}`. */
  datatype WireToolCall = WireToolCall(id: string, name: string, arguments: string)

  /** `choices[i].message`: `content` is `null` or a string, `tool_calls` may
      be missing (or `null`, which reads the same). */
  datatype WireMessage = WireMessage(content: Option<string>, toolCalls: Option<seq<WireToolCall>>)

  datatype Choice = Choice(message: WireMessage, finishReason: string)

  datatype WireUsage = WireUsage(promptTokens: nat, completionTokens: nat, totalTokens: nat)

  /** The response body, read through the adapters' type cast. */
  datatype Completion = Completion(choices: seq<Choice>, usage: WireUsage)

  /** The message of the `TypeError` that reading `choices[0].message` throws
      when there is no choice. */
  const NO_CHOICE := "Cannot read properties of undefined (reading 'message')"

  /** The SDK's tool-call request for a wire tool call. */
  function FromWire(w: WireToolCall): ToolCall {
    ToolCall(w.id, w.name, w.arguments)
  }

  /** The wire tool call for an SDK tool-call request. */
  function ToWire(c: ToolCall): WireToolCall {
    WireToolCall(c.toolCallId, c.name, c.arguments)
  }

  /** The `map` over `tool_calls` in `parseAssistantResponse`. */
  function FromWireAll(ws: seq<WireToolCall>): (cs: seq<ToolCall>)
    ensures |cs| == |ws|
    ensures forall i :: 0 <= i < |ws| ==> ToWire(cs[i]) == ws[i]
  {
    if |ws| == 0 then [] else FromWireAll(ws[..|ws| - 1]) + [FromWire(ws[|ws| - 1])]
  }

  /** `parseAssistantResponse`: the first choice's content and tool calls, the
      usage counters and the first choice's finish reason. */
  function ParseAssistantResponse(data: Completion): (r: Result<AssistantResponse, Error>)
    ensures r.Failure? <==> |data.choices| == 0
    ensures r.Failure? ==> r.error == NO_CHOICE
    ensures r.Success? ==>
              var wire := data.choices[0].message;
              var m := r.value.message;
              && (m.content == NoContent <==> wire.content.None?)
              && (wire.content.Some? ==> m.content == AssistantText(wire.content.value))
              && (m.toolCalls.Some? <==> wire.toolCalls.Some?)
              && (wire.toolCalls.Some? ==>
                    && |m.toolCalls.value| == |wire.toolCalls.value|
                    && forall i :: 0 <= i < |m.toolCalls.value| ==> ToWire(m.toolCalls.value[i]) == wire.toolCalls.value[i])
              && r.value.usage == Usage(data.usage.promptTokens, data.usage.completionTokens, data.usage.totalTokens)
              && r.value.finishReason == data.choices[0].finishReason
  {
    if |data.choices| == 0 then Failure(NO_CHOICE)
    else
      var choice := data.choices[0];
      var content := if choice.message.content.Some? then AssistantText(choice.message.content.value) else NoContent;
      var toolCalls := if choice.message.toolCalls.Some? then Some(FromWireAll(choice.message.toolCalls.value)) else None;
      Success(AssistantResponse(
        AssistantMessage(content, toolCalls),
        Usage(data.usage.promptTokens, data.usage.completionTokens, data.usage.totalTokens),
        choice.finishReason))
  }

  // ----- Payloads the adapters send -----

  /** The JSON of one requested tool call inside an assistant message. */
  function ToolCallPayload(c: ToolCall): Json {
    JObj(map["id" := JStr(c.toolCallId), "type" := JStr("function"),
             "function" := JObj(map["name" := JStr(c.name), "arguments" := JStr(c.arguments)])])
  }

  /** The `map` over `toolCalls` in `formatMessagePayload`. */
  function ToolCallsPayload(cs: seq<ToolCall>): (js: seq<Json>)
    ensures |js| == |cs|
    ensures forall i :: 0 <= i < |cs| ==> js[i] == ToolCallPayload(cs[i])
  {
    if |cs| == 0 then [] else ToolCallsPayload(cs[..|cs| - 1]) + [ToolCallPayload(cs[|cs| - 1])]
  }

  /** Reads one tool call back from the JSON a provider receives. */
  function DecodeToolCall(j: Json): Option<WireToolCall> {
    if !j.JObj? || "id" !in j.fields || "function" !in j.fields then None
    else
      var f := j.fields["function"];
      if !j.fields["id"].JStr? || !f.JObj? || "name" !in f.fields || "arguments" !in f.fields then None
      else if !f.fields["name"].JStr? || !f.fields["arguments"].JStr? then None
      else Some(WireToolCall(j.fields["id"].s, f.fields["name"].s, f.fields["arguments"].s))
  }

  function DecodeToolCalls(js: seq<Json>): (r: Option<seq<WireToolCall>>)
    ensures r.Some? ==> |r.value| == |js| && forall i :: 0 <= i < |js| ==> DecodeToolCall(js[i]) == Some(r.value[i])
  {
    if |js| == 0 then Some([])
    else
      match (DecodeToolCalls(js[..|js| - 1]), DecodeToolCall(js[|js| - 1]))
      case (Some(init), Some(last)) => Some(init + [last])
      case _ => None
  }

  /** Reads an assistant message's payload the way a provider does: `content`
      must be `null` or a string, `tool_calls` is optional. */
  function DecodeMessage(j: Json): Option<WireMessage> {
    if !j.JObj? || "content" !in j.fields then None
    else
      var c := j.fields["content"];
      var content := if c.JStr? then Some(Some(c.s)) else if c.JNull? then Some(None) else None;
      if content.None? then None
      else if "tool_calls" !in j.fields || j.fields["tool_calls"].JNull? then Some(WireMessage(content.value, None))
      else if !j.fields["tool_calls"].JArr? then None
      else
        match DecodeToolCalls(j.fields["tool_calls"].items)
        case None => None
        case Some(ws) => Some(WireMessage(content.value, Some(ws)))
  }

  /** The provider reads back every tool call it was sent, in order. */
  lemma {:induction false} ToolCallsPayloadDecodes(cs: seq<ToolCall>)
    ensures DecodeToolCalls(ToolCallsPayload(cs)) == Some(ToWireAll(cs))
  {
    if |cs| > 0 {
      var n := |cs| - 1;
      assert ToolCallsPayload(cs)[..n] == ToolCallsPayload(cs[..n]);
      ToolCallsPayloadDecodes(cs[..n]);
      assert ToWireAll(cs) == ToWireAll(cs[..n]) + [ToWire(cs[n])];
    }
  }

  function ToWireAll(cs: seq<ToolCall>): (ws: seq<WireToolCall>)
    ensures |ws| == |cs|
    ensures forall i :: 0 <= i < |cs| ==> ws[i] == ToWire(cs[i])
  {
    if |cs| == 0 then [] else ToWireAll(cs[..|cs| - 1]) + [ToWire(cs[|cs| - 1])]
  }

  /** Parsing the wire form of some tool calls gives them back. */
  lemma {:induction false} FromWireToWire(cs: seq<ToolCall>)
    ensures FromWireAll(ToWireAll(cs)) == cs
  {
    var back := FromWireAll(ToWireAll(cs));
    assert |back| == |cs|;
    forall i | 0 <= i < |cs| ensures back[i] == cs[i] {
      assert ToWire(back[i]) == ToWire(cs[i]);
      assert FromWire(ToWire(back[i])) == back[i];
    }
  }

  /** `formatToolCallPayload`: name, description and parameters under
      `function`, with `strict` only when the tool's `strict` is truthy. */
  function FormatToolCallPayload(tool: Tool): (j: Json)
    ensures j.JObj? && j.fields.Keys == {"type", "function"} && j.fields["type"] == JStr("function")
    ensures var f := j.fields["function"];
            && f.JObj?
            && f.fields.Keys == (if tool.strict == Some(true) then {"name", "description", "parameters", "strict"}
                                 else {"name", "description", "parameters"})
            && f.fields["name"] == JStr(tool.name)
            && f.fields["description"] == JStr(tool.description)
            && f.fields["parameters"] == tool.parameters
            && (tool.strict == Some(true) ==> f.fields["strict"] == JBool(true))
  {
    var base := map["name" := JStr(tool.name), "description" := JStr(tool.description), "parameters" := tool.parameters];
    var fn := if tool.strict == Some(true) then base["strict" := JBool(true)] else base;
    JObj(map["type" := JStr("function"), "function" := JObj(fn)])
  }
}
