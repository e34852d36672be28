/** The current Azure OpenAI adapter (`AzureOpenAIService` over
    `LLMApiService`): configuration by endpoint or by URL, the request URL
    and headers, and the serialisation of messages and options. */
module AzureOpenAI {
  import opened Wrappers
  import opened Json
  import opened Models
  import opened AzureChat

  const DEFAULT_API_VERSION := "2025-01-01-preview"
  const INVALID_PARAMETERS := "Invalid parameters: provide either { apiKey, deployment, endpoint } or { url, headers }"
  /** The message thrown for a user part that is neither text nor a string
      image; the part is an object, so the template shows `[object Object]`. */
  const INVALID_PART := "Invalid part type in user message: [object Object]"
  const COMPLETIONS_PATH := "/chat/completions?api-version="

  /** The constructor's argument; `Some` is a key present in the object. */
  datatype ServiceParams = ServiceParams(
    apiKey: Option<string>,
    deployment: Option<string>,
    endpoint: Option<string>,
    apiVersion: Option<string>,
    url: Option<string>,
    headers: Option<map<string, string>>)

  /** The adapter's private configuration. It is set once, by the
      constructor, and only read afterwards. */
  datatype AzureOpenAIService = AzureOpenAIService(
    apiKey: Option<string>,
    deployment: Option<string>,
    endpoint: Option<string>,
    apiVersion: string,
    url: Option<string>,
    headers: Option<map<string, string>>)

  predicate UrlConfig(p: ServiceParams) {
    p.url.Some? && p.headers.Some?
  }

  predicate EndpointConfig(p: ServiceParams) {
    p.endpoint.Some? && p.deployment.Some? && p.apiKey.Some?
  }

  /** The constructor: URL configuration takes precedence over endpoint
      configuration, anything else is rejected; an absent or empty
      `apiVersion` becomes the default. */
  function New(p: ServiceParams): (r: Result<AzureOpenAIService, Error>)
    ensures r.Success? <==> UrlConfig(p) || EndpointConfig(p)
    ensures r.Failure? ==> r.error == INVALID_PARAMETERS
    ensures r.Success? ==>
              && r.value.apiVersion != ""
              && (p.apiVersion.Some? && p.apiVersion.value != "" ==> r.value.apiVersion == p.apiVersion.value)
              && (p.apiVersion.None? || p.apiVersion.value == "" ==> r.value.apiVersion == DEFAULT_API_VERSION)
    ensures r.Success? && UrlConfig(p) ==>
              && r.value.url == p.url && r.value.headers == p.headers
              && r.value.apiKey.None? && r.value.endpoint.None? && r.value.deployment.None?
    ensures r.Success? && !UrlConfig(p) ==>
              && r.value.apiKey == p.apiKey && r.value.endpoint == p.endpoint && r.value.deployment == p.deployment
              && r.value.url.None? && r.value.headers.None?
  {
    var apiVersion := if p.apiVersion.Some? && p.apiVersion.value != "" then p.apiVersion.value else DEFAULT_API_VERSION;
    if UrlConfig(p) then Success(AzureOpenAIService(None, None, None, apiVersion, p.url, p.headers))
    else if EndpointConfig(p) then Success(AzureOpenAIService(p.apiKey, p.deployment, p.endpoint, apiVersion, None, None))
    else Failure(INVALID_PARAMETERS)
  }

  /** A template-literal substitution: an unset field prints as "undefined". */
  function Show(field: Option<string>): string {
    if field.Some? then field.value else "undefined"
  }

  /** `getURL`: a non-empty configured URL, else the endpoint's deployment
      route, always followed by the API-version query. */
  function GetURL(s: AzureOpenAIService): (u: string)
    ensures |u| >= |COMPLETIONS_PATH + s.apiVersion|
    ensures u[|u| - |COMPLETIONS_PATH + s.apiVersion|..] == COMPLETIONS_PATH + s.apiVersion
    ensures s.url.Some? && s.url.value != "" ==> |u| >= |s.url.value| && u[..|s.url.value|] == s.url.value
  {
    var base := if s.url.Some? && s.url.value != "" then s.url.value
                else Show(s.endpoint) + "/openai/deployments/" + Show(s.deployment);
    base + COMPLETIONS_PATH + s.apiVersion
  }

  /** `getHeaders`: the configured headers as they are, else the API key
      header when the key is non-empty, else no header. */
  function GetHeaders(s: AzureOpenAIService): (h: map<string, string>)
    ensures s.headers.Some? ==> h == s.headers.value
    ensures s.headers.None? ==>
              && h.Keys <= {"api-key"}
              && ("api-key" in h <==> s.apiKey.Some? && s.apiKey.value != "")
              && ("api-key" in h ==> h["api-key"] == s.apiKey.value)
  {
    if s.headers.Some? then s.headers.value
    else if s.apiKey.Some? && s.apiKey.value != "" then map["api-key" := s.apiKey.value]
    else map[]
  }

  /** An endpoint configuration addresses the deployment's chat-completions
      route under the endpoint, with the configured or default API version. */
  lemma EndpointURL(apiKey: string, deployment: string, endpoint: string, apiVersion: Option<string>)
    ensures var r := New(ServiceParams(Some(apiKey), Some(deployment), Some(endpoint), apiVersion, None, None));
            && r.Success?
            && GetURL(r.value) == endpoint + "/openai/deployments/" + deployment + COMPLETIONS_PATH + r.value.apiVersion
            && GetHeaders(r.value) == (if apiKey == "" then map[] else map["api-key" := apiKey])
  {
  }

  /** A URL configuration addresses the URL itself and sends its headers
      verbatim, whatever endpoint fields are also given. */
  lemma UrlConfigURL(p: ServiceParams)
    requires UrlConfig(p) && p.url.value != ""
    ensures New(p).Success?
    ensures GetURL(New(p).value) == p.url.value + COMPLETIONS_PATH + New(p).value.apiVersion
    ensures GetHeaders(New(p).value) == p.headers.value
  {
  }

  /** An empty URL is falsy: the URL falls back to the endpoint form, whose
      fields the URL configuration never set. */
  lemma EmptyUrlFallsBack(headers: map<string, string>, apiVersion: Option<string>)
    ensures var r := New(ServiceParams(None, None, None, apiVersion, Some(""), Some(headers)));
            && r.Success?
            && GetURL(r.value) == "undefined" + "/openai/deployments/" + "undefined" + COMPLETIONS_PATH + r.value.apiVersion
  {
  }

  // ----- Messages -----

  /** A user part the adapter accepts: text, or an image given as a string. */
  predicate Sendable(part: UserPart) {
    part.TextPart? || part.image.ImageString?
  }

  function PartPayload(part: UserPart): Json
    requires Sendable(part)
  {
    if part.TextPart? then JObj(map["type" := JStr("text"), "text" := JStr(part.text)])
    else JObj(map["type" := JStr("image_url"), "image_url" := JObj(map["url" := JStr(part.image.url)])])
  }

  /** The `map` over user parts: each part in order, or the error of the
      first part that is neither text nor a string image. */
  function PartsPayload(parts: seq<UserPart>): (r: Result<seq<Json>, Error>)
    ensures r.Success? <==> forall i :: 0 <= i < |parts| ==> Sendable(parts[i])
    ensures r.Failure? ==> r.error == INVALID_PART
    ensures r.Success? ==> |r.value| == |parts| && forall i :: 0 <= i < |parts| ==> r.value[i] == PartPayload(parts[i])
  {
    if |parts| == 0 then Success([])
    else
      match PartsPayload(parts[..|parts| - 1])
      case Failure(e) => Failure(e)
      case Success(init) =>
        var last := parts[|parts| - 1];
        if Sendable(last) then Success(init + [PartPayload(last)]) else Failure(INVALID_PART)
  }

  /** The JSON of an assistant message's content as the object carries it. */
  function ContentPayload(c: AssistantContent): Json {
    match c
    case NoContent => JNull
    case AssistantText(t) => JStr(t)
    case AssistantSegments(ts) => JArr(SegmentsPayload(ts))
  }

  /** Text segments as `{type: 'text', text}` objects, in order. */
  function SegmentsPayload(ts: seq<string>): (js: seq<Json>)
    ensures |js| == |ts|
    ensures forall i :: 0 <= i < |ts| ==> js[i] == JObj(map["type" := JStr("text"), "text" := JStr(ts[i])])
  {
    if |ts| == 0 then [] else SegmentsPayload(ts[..|ts| - 1]) + [JObj(map["type" := JStr("text"), "text" := JStr(ts[|ts| - 1])])]
  }

  /** JavaScript truthiness of an assistant message's content. */
  predicate TruthyContent(c: AssistantContent) {
    c.AssistantSegments? || (c.AssistantText? && c.text != "")
  }

  /** `formatMessagePayload`. */
  function FormatMessagePayload(m: Message): (r: Result<Json, Error>)
    ensures r.Failure? <==> m.UserMessage? && m.userContent.UserParts? &&
                            exists i :: 0 <= i < |m.userContent.parts| && !Sendable(m.userContent.parts[i])
    ensures r.Failure? ==> r.error == INVALID_PART
    ensures r.Success? ==> r.value.JObj? && "role" in r.value.fields && r.value.fields["role"] == JStr(RoleName(m))
    ensures r.Success? && m.SystemMessage? ==> r.value.fields == map["role" := JStr("system"), "content" := JStr(m.systemText)]
    ensures r.Success? && m.UserMessage? && m.userContent.UserText? ==>
              r.value.fields == map["role" := JStr("user"), "content" := JStr(m.userContent.text)]
    ensures r.Success? && m.UserMessage? && m.userContent.UserParts? ==>
              && PartsPayload(m.userContent.parts).Success?
              && r.value.fields == map["role" := JStr("user"), "content" := JArr(PartsPayload(m.userContent.parts).value)]
    ensures r.Success? && m.ToolMessage? ==>
              r.value.fields == map["role" := JStr("tool"), "content" := JStr(m.toolContent), "tool_call_id" := JStr(m.toolCallId)]
    ensures r.Success? && m.AssistantMessage? ==>
              && r.value.fields.Keys <= {"role", "content", "tool_calls"}
              && ("tool_calls" in r.value.fields <==> !TruthyContent(m.content) && HasToolCalls(m))
              && "content" in r.value.fields
              && ("tool_calls" in r.value.fields ==>
                    r.value.fields["content"] == JNull && r.value.fields["tool_calls"] == JArr(ToolCallsPayload(m.toolCalls.value)))
              && ("tool_calls" !in r.value.fields ==> r.value.fields["content"] == ContentPayload(m.content))
  {
    match m
    case SystemMessage(text) => Success(JObj(map["role" := JStr("system"), "content" := JStr(text)]))
    case UserMessage(UserText(text)) => Success(JObj(map["role" := JStr("user"), "content" := JStr(text)]))
    case UserMessage(UserParts(parts)) =>
      (match PartsPayload(parts)
       case Failure(e) => Failure(e)
       case Success(content) => Success(JObj(map["role" := JStr("user"), "content" := JArr(content)])))
    case AssistantMessage(content, toolCalls) =>
      if TruthyContent(content) then Success(JObj(map["role" := JStr("assistant"), "content" := ContentPayload(content)]))
      else if toolCalls.Some? && |toolCalls.value| > 0 then
        Success(JObj(map["role" := JStr("assistant"), "content" := JNull, "tool_calls" := JArr(ToolCallsPayload(toolCalls.value))]))
      else Success(JObj(map["role" := JStr("assistant"), "content" := ContentPayload(content)]))
    case ToolMessage(content, toolCallId) =>
      Success(JObj(map["role" := JStr("tool"), "content" := JStr(content), "tool_call_id" := JStr(toolCallId)]))
  }

  /** A string or `null` assistant message, serialised, read by a provider and
      parsed back, is the message itself exactly when the serialisation lost
      nothing: the message carries no tool-call list, or it has no content and
      a non-empty one. Text wins over tool calls, and an empty list is dropped. */
  lemma AssistantRoundTrip(m: Message, finishReason: string, usage: WireUsage)
    requires m.AssistantMessage? && !m.content.AssistantSegments?
    ensures FormatMessagePayload(m).Success?
    ensures DecodeMessage(FormatMessagePayload(m).value).Some?
    ensures var wire := DecodeMessage(FormatMessagePayload(m).value).value;
            var back := ParseAssistantResponse(Completion([Choice(wire, finishReason)], usage));
            && back.Success?
            && (back.value.message == m <==> m.toolCalls.None? || (m.content == NoContent && |m.toolCalls.value| > 0))
  {
    if TruthyContent(m.content) || !HasToolCalls(m) {
      ContentOnlyRoundTrip(m, finishReason, usage);
    } else {
      ToolCallsRoundTrip(m, finishReason, usage);
    }
  }

  /** Without a `tool_calls` key the provider reads back the content alone. */
  lemma ContentOnlyRoundTrip(m: Message, finishReason: string, usage: WireUsage)
    requires m.AssistantMessage? && !m.content.AssistantSegments?
    requires TruthyContent(m.content) || !HasToolCalls(m)
    ensures FormatMessagePayload(m).Success?
    ensures DecodeMessage(FormatMessagePayload(m).value) == Some(WireMessage(if m.content.AssistantText? then Some(m.content.text) else None, None))
    ensures var back := ParseAssistantResponse(Completion([Choice(DecodeMessage(FormatMessagePayload(m).value).value, finishReason)], usage));
            && back.Success?
            && back.value.message == AssistantMessage(m.content, None)
  {
    var j := FormatMessagePayload(m).value;
    assert j == JObj(map["role" := JStr("assistant"), "content" := ContentPayload(m.content)]);
  }

  /** With a `tool_calls` key the provider reads back no content and every tool call. */
  lemma ToolCallsRoundTrip(m: Message, finishReason: string, usage: WireUsage)
    requires m.AssistantMessage? && !TruthyContent(m.content) && HasToolCalls(m)
    ensures FormatMessagePayload(m).Success?
    ensures DecodeMessage(FormatMessagePayload(m).value) == Some(WireMessage(None, Some(ToWireAll(m.toolCalls.value))))
    ensures var back := ParseAssistantResponse(Completion([Choice(DecodeMessage(FormatMessagePayload(m).value).value, finishReason)], usage));
            && back.Success?
            && back.value.message == AssistantMessage(NoContent, m.toolCalls)
  {
    var j := FormatMessagePayload(m).value;
    assert j == JObj(map["role" := JStr("assistant"), "content" := JNull, "tool_calls" := JArr(ToolCallsPayload(m.toolCalls.value))]);
    ToolCallsPayloadDecodes(m.toolCalls.value);
    FromWireToWire(m.toolCalls.value);
  }

  // ----- Options -----

  /** The option keys the adapter may send. */
  const OPTION_KEYS := {"max_tokens", "temperature", "top_p", "frequency_penalty", "presence_penalty", "stop", "seed"}

  /** Adds `key := value` when `given`. */
  function Put(payload: map<string, Json>, given: bool, key: string, value: Json): map<string, Json> {
    if given then payload[key := value] else payload
  }

  function NumberOr(n: Option<Number>): Json {
    if n.Some? then JNum(n.value) else JNull
  }

  function StringsPayload(ss: seq<string>): (js: seq<Json>)
    ensures |js| == |ss| && forall i :: 0 <= i < |ss| ==> js[i] == JStr(ss[i])
  {
    if |ss| == 0 then [] else StringsPayload(ss[..|ss| - 1]) + [JStr(ss[|ss| - 1])]
  }

  function StopPayload(o: Options): Json {
    if o.stopSequences.Some? then JArr(StringsPayload(o.stopSequences.value)) else JNull
  }

  /** `formatOptionsPayload`: every numeric option under its wire name when
      it is truthy, `stop` whenever stop sequences are given (an array is
      always truthy), and nothing else. */
  function FormatOptionsPayload(o: Options): (r: map<string, Json>)
    ensures r.Keys <= OPTION_KEYS
    ensures ("max_tokens" in r <==> Given(o.maxTokens)) && ("max_tokens" in r ==> r["max_tokens"] == JNum(o.maxTokens.value))
    ensures ("temperature" in r <==> Given(o.temperature)) && ("temperature" in r ==> r["temperature"] == JNum(o.temperature.value))
    ensures ("top_p" in r <==> Given(o.topP)) && ("top_p" in r ==> r["top_p"] == JNum(o.topP.value))
    ensures ("frequency_penalty" in r <==> Given(o.frequencyPenalty))
            && ("frequency_penalty" in r ==> r["frequency_penalty"] == JNum(o.frequencyPenalty.value))
    ensures ("presence_penalty" in r <==> Given(o.presencePenalty))
            && ("presence_penalty" in r ==> r["presence_penalty"] == JNum(o.presencePenalty.value))
    ensures ("stop" in r <==> o.stopSequences.Some?)
            && ("stop" in r ==> r["stop"] == JArr(StringsPayload(o.stopSequences.value)))
    ensures ("seed" in r <==> Given(o.seed)) && ("seed" in r ==> r["seed"] == JNum(o.seed.value))
  {
    var r := map[];
    var r := Put(r, Given(o.maxTokens), "max_tokens", NumberOr(o.maxTokens));
    var r := Put(r, Given(o.temperature), "temperature", NumberOr(o.temperature));
    var r := Put(r, Given(o.topP), "top_p", NumberOr(o.topP));
    var r := Put(r, Given(o.frequencyPenalty), "frequency_penalty", NumberOr(o.frequencyPenalty));
    var r := Put(r, Given(o.presencePenalty), "presence_penalty", NumberOr(o.presencePenalty));
    var r := Put(r, o.stopSequences.Some?, "stop", StopPayload(o));
    Put(r, Given(o.seed), "seed", NumberOr(o.seed))
  }
}
