/** The older Azure OpenAI adapter (`AzureOpenAIService` over `LLMService`):
    endpoint configuration only, an API key header that is always sent, no
    check on image parts, text-segment arrays for assistant content, tool
    calls that replace string content, and no `seed` option. Its tool payload
    and its parsing of a completion are the current adapter's. */
module LegacyAzureOpenAI {
  import opened Wrappers
  import opened Json
  import opened Models
  import opened AzureChat
  import AzureOpenAI

  /** The constructor's argument; `apiVersion` may be left out. */
  datatype ServiceParams = ServiceParams(apiKey: string, deployment: string, endpoint: string, apiVersion: Option<string>)

  datatype AzureOpenAIService = AzureOpenAIService(apiKey: string, deployment: string, endpoint: string, apiVersion: string)

  /** The constructor: a destructuring default replaces only a missing
      `apiVersion`, so an empty one is kept. */
  function New(p: ServiceParams): (s: AzureOpenAIService)
    ensures p.apiVersion.None? ==> s.apiVersion == AzureOpenAI.DEFAULT_API_VERSION
    ensures p.apiVersion.Some? ==> s.apiVersion == p.apiVersion.value
    ensures s.apiKey == p.apiKey && s.deployment == p.deployment && s.endpoint == p.endpoint
  {
    AzureOpenAIService(p.apiKey, p.deployment, p.endpoint,
                       if p.apiVersion.Some? then p.apiVersion.value else AzureOpenAI.DEFAULT_API_VERSION)
  }

  /** `getURL`: under the endpoint, and followed by the API-version query,
      which is empty when the version is. */
  function GetURL(s: AzureOpenAIService): (u: string)
    ensures |u| >= |s.endpoint| + |AzureOpenAI.COMPLETIONS_PATH + s.apiVersion|
    ensures u[..|s.endpoint|] == s.endpoint
    ensures u[|u| - |AzureOpenAI.COMPLETIONS_PATH + s.apiVersion|..] == AzureOpenAI.COMPLETIONS_PATH + s.apiVersion
  {
    s.endpoint + "/openai/deployments/" + s.deployment + AzureOpenAI.COMPLETIONS_PATH + s.apiVersion
  }

  /** `getHeaders`: the API key header alone, sent even when the key is empty. */
  function GetHeaders(s: AzureOpenAIService): (h: map<string, string>)
    ensures h.Keys == {"api-key"} && h["api-key"] == s.apiKey
  {
    map["api-key" := s.apiKey]
  }

  /** The current adapter's endpoint parameters for the same arguments. */
  function Current(p: ServiceParams): AzureOpenAI.ServiceParams {
    AzureOpenAI.ServiceParams(Some(p.apiKey), Some(p.deployment), Some(p.endpoint), p.apiVersion, None, None)
  }

  /** Both adapters address the same URL, except for an empty API version,
      which the current one replaces by its default and this one keeps. */
  lemma SameURLAsCurrent(p: ServiceParams)
    ensures AzureOpenAI.New(Current(p)).Success?
    ensures p.apiVersion != Some("") ==> GetURL(New(p)) == AzureOpenAI.GetURL(AzureOpenAI.New(Current(p)).value)
    ensures p.apiVersion == Some("") ==>
              && GetURL(New(p)) == p.endpoint + "/openai/deployments/" + p.deployment + AzureOpenAI.COMPLETIONS_PATH
              && AzureOpenAI.GetURL(AzureOpenAI.New(Current(p)).value)
                 == GetURL(New(p)) + AzureOpenAI.DEFAULT_API_VERSION
  {
    AzureOpenAI.EndpointURL(p.apiKey, p.deployment, p.endpoint, p.apiVersion);
  }

  /** Both adapters send the same headers, except for an empty API key, which
      this one still sends and the current one leaves out. */
  lemma SameHeadersAsCurrent(p: ServiceParams)
    ensures AzureOpenAI.New(Current(p)).Success?
    ensures p.apiKey != "" <==> GetHeaders(New(p)) == AzureOpenAI.GetHeaders(AzureOpenAI.New(Current(p)).value)
    ensures "api-key" in GetHeaders(New(p)) && GetHeaders(New(p))["api-key"] == p.apiKey
  {
    AzureOpenAI.EndpointURL(p.apiKey, p.deployment, p.endpoint, p.apiVersion);
    if p.apiKey == "" {
      assert "api-key" !in AzureOpenAI.GetHeaders(AzureOpenAI.New(Current(p)).value);
    }
  }

  // ----- Messages -----

  /** The JSON of an image payload: a string as it is, a binary object as it is. */
  function ImagePayload(image: ImageSource): Json {
    match image
    case ImageString(url) => JStr(url)
    case ImageBinary(bytes) => JBytes(bytes)
  }

  function PartPayload(part: UserPart): Json {
    match part
    case TextPart(text) => JObj(map["type" := JStr("text"), "text" := JStr(text)])
    case ImagePart(image, _) => JObj(map["type" := JStr("image_url"), "image_url" := JObj(map["url" := ImagePayload(image)])])
  }

  /** The `map` over user parts: every part, in order, with no check on the image. */
  function PartsPayload(parts: seq<UserPart>): (js: seq<Json>)
    ensures |js| == |parts|
    ensures forall i :: 0 <= i < |parts| ==> js[i] == PartPayload(parts[i])
  {
    if |parts| == 0 then [] else PartsPayload(parts[..|parts| - 1]) + [PartPayload(parts[|parts| - 1])]
  }

  /** `formatMessagePayload`. */
  function FormatMessagePayload(m: Message): (j: Json)
    ensures j.JObj? && "role" in j.fields && j.fields["role"] == JStr(RoleName(m)) && "content" in j.fields
    ensures m.SystemMessage? ==> j.fields == map["role" := JStr("system"), "content" := JStr(m.systemText)]
    ensures m.UserMessage? && m.userContent.UserText? ==> j.fields == map["role" := JStr("user"), "content" := JStr(m.userContent.text)]
    ensures m.UserMessage? && m.userContent.UserParts? ==>
              j.fields == map["role" := JStr("user"), "content" := JArr(PartsPayload(m.userContent.parts))]
    ensures m.ToolMessage? ==>
              j.fields == map["role" := JStr("tool"), "content" := JStr(m.toolContent), "tool_call_id" := JStr(m.toolCallId)]
    ensures m.AssistantMessage? ==>
              && j.fields.Keys <= {"role", "content", "tool_calls"}
              && ("tool_calls" in j.fields <==> !m.content.AssistantSegments? && HasToolCalls(m))
              && ("tool_calls" in j.fields ==>
                    j.fields["content"] == JNull && j.fields["tool_calls"] == JArr(ToolCallsPayload(m.toolCalls.value)))
              && ("tool_calls" !in j.fields ==> j.fields["content"] == AzureOpenAI.ContentPayload(m.content))
  {
    match m
    case SystemMessage(text) => JObj(map["role" := JStr("system"), "content" := JStr(text)])
    case UserMessage(UserText(text)) => JObj(map["role" := JStr("user"), "content" := JStr(text)])
    case UserMessage(UserParts(parts)) => JObj(map["role" := JStr("user"), "content" := JArr(PartsPayload(parts))])
    case AssistantMessage(content, toolCalls) =>
      if content.AssistantSegments? then
        JObj(map["role" := JStr("assistant"), "content" := JArr(AzureOpenAI.SegmentsPayload(content.segments))])
      else if toolCalls.Some? && |toolCalls.value| > 0 then
        JObj(map["role" := JStr("assistant"), "content" := JNull, "tool_calls" := JArr(ToolCallsPayload(toolCalls.value))])
      else JObj(map["role" := JStr("assistant"), "content" := AzureOpenAI.ContentPayload(content)])
    case ToolMessage(content, toolCallId) =>
      JObj(map["role" := JStr("tool"), "content" := JStr(content), "tool_call_id" := JStr(toolCallId)])
  }

  /** Where the current adapter accepts a message, both serialise it alike,
      except an assistant message with both text and tool calls: the current
      adapter keeps the text, this one keeps the tool calls. Only this one
      accepts binary images. */
  lemma AgreesWithCurrent(m: Message)
    ensures AzureOpenAI.FormatMessagePayload(m).Success? ==>
              (FormatMessagePayload(m) == AzureOpenAI.FormatMessagePayload(m).value
               <==> !(m.AssistantMessage? && m.content.AssistantText? && m.content.text != "" && HasToolCalls(m)))
  {
    if m.UserMessage? && m.userContent.UserParts? && AzureOpenAI.FormatMessagePayload(m).Success? {
      var parts := m.userContent.parts;
      assert PartsPayload(parts) == AzureOpenAI.PartsPayload(parts).value;
    }
    if m.AssistantMessage? && m.content.AssistantText? && m.content.text != "" && HasToolCalls(m) {
      assert "tool_calls" in FormatMessagePayload(m).fields;
      assert "tool_calls" !in AzureOpenAI.FormatMessagePayload(m).value.fields;
    }
  }

  /** Binary images, which the current adapter rejects, are sent as they are. */
  lemma BinaryImageSent(bytes: seq<bv8>, mimeType: Option<string>)
    ensures var m := UserMessage(UserParts([ImagePart(ImageBinary(bytes), mimeType)]));
            && AzureOpenAI.FormatMessagePayload(m) == Failure(AzureOpenAI.INVALID_PART)
            && FormatMessagePayload(m).fields["content"]
               == JArr([JObj(map["type" := JStr("image_url"), "image_url" := JObj(map["url" := JBytes(bytes)])])])
  {
    var m := UserMessage(UserParts([ImagePart(ImageBinary(bytes), mimeType)]));
    assert !AzureOpenAI.Sendable(m.userContent.parts[0]);
  }

  /** An assistant turn that requested tools, serialised and parsed back,
      keeps every tool call in order but loses any string content. */
  lemma ToolCallsWinRoundTrip(m: Message, finishReason: string, usage: WireUsage)
    requires m.AssistantMessage? && !m.content.AssistantSegments? && HasToolCalls(m)
    ensures DecodeMessage(FormatMessagePayload(m)) == Some(WireMessage(None, Some(ToWireAll(m.toolCalls.value))))
    ensures var back := ParseAssistantResponse(Completion([Choice(DecodeMessage(FormatMessagePayload(m)).value, finishReason)], usage));
            && back.Success?
            && back.value.message == AssistantMessage(NoContent, m.toolCalls)
  {
    ToolCallsPayloadDecodes(m.toolCalls.value);
    FromWireToWire(m.toolCalls.value);
  }

  // ----- Options -----

  /** `formatOptionsPayload`: the current adapter's options without `seed`. */
  function FormatOptionsPayload(o: Options): (r: map<string, Json>)
    ensures r == AzureOpenAI.FormatOptionsPayload(o) - {"seed"}
    ensures "seed" !in r
  {
    var r := map[];
    var r := AzureOpenAI.Put(r, Given(o.maxTokens), "max_tokens", AzureOpenAI.NumberOr(o.maxTokens));
    var r := AzureOpenAI.Put(r, Given(o.temperature), "temperature", AzureOpenAI.NumberOr(o.temperature));
    var r := AzureOpenAI.Put(r, Given(o.topP), "top_p", AzureOpenAI.NumberOr(o.topP));
    var r := AzureOpenAI.Put(r, Given(o.frequencyPenalty), "frequency_penalty", AzureOpenAI.NumberOr(o.frequencyPenalty));
    var r := AzureOpenAI.Put(r, Given(o.presencePenalty), "presence_penalty", AzureOpenAI.NumberOr(o.presencePenalty));
    AzureOpenAI.Put(r, o.stopSequences.Some?, "stop", AzureOpenAI.StopPayload(o))
  }
}
