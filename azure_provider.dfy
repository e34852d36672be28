/** `AzureOpenAIProvider`, the earliest Azure client: it sends the
    conversation's messages as they are (role and content), a fixed API
    version, the truthy generation options and the API key, and reads the
    text, finish reason and usage of the first choice back. It has its own
    message shapes, in which tool calls and tool results are content
    segments. */
module AzureProvider {
  import opened Wrappers
  import opened Json
  import Models
  import AzureChat
  import Http
  import AzureOpenAI
  import LegacyAzureOpenAI
  import LlmService

  /** The API version every request names. */
  const API_VERSION := "2025-01-01-preview"

  // ----- Messages -----

  datatype UserSegment =
    | UserTextSegment(text: string)
    | ImageSegment(image: Models.ImageSource, mimeType: Option<string>)

  datatype AssistantSegment =
    | AssistantTextSegment(text: string)
    | ToolCallSegment(toolCallId: string, toolName: string, arguments: string)

  datatype ToolResultSegment = ToolResultSegment(toolCallId: string, toolName: string, result: string)

  /** The content of a message: a string or an array of segments. */
  datatype Content =
    | Text(text: string)
    | UserSegments(userSegments: seq<UserSegment>)
    | AssistantSegments(assistantSegments: seq<AssistantSegment>)
    | ToolResults(results: seq<ToolResultSegment>)

  datatype Role = User | System | Assistant | Tool

  /** `LLMMessage`: a role and its content. */
  datatype Message = Message(role: Role, content: Content)

  /** The role's name on the wire. */
  function RoleName(r: Role): (name: string)
    ensures name in {"user", "system", "assistant", "tool"}
  {
    match r
    case User => "user"
    case System => "system"
    case Assistant => "assistant"
    case Tool => "tool"
  }

  /** The role a wire name stands for. */
  function ParseRole(name: string): (r: Option<Role>)
    ensures r.Some? ==> RoleName(r.value) == name
  {
    if name == "user" then Some(User)
    else if name == "system" then Some(System)
    else if name == "assistant" then Some(Assistant)
    else if name == "tool" then Some(Tool)
    else None
  }

  /** One message of the request: `{role, content}`. */
  datatype RequestMessage = RequestMessage(role: string, content: Content)

  /** `convertMessagesToRequestFormat`: each message reduced to its role and
      content, in order. */
  function ConvertMessagesToRequestFormat(messages: seq<Message>): (rs: seq<RequestMessage>)
    ensures |rs| == |messages|
    ensures forall i :: 0 <= i < |messages| ==>
              rs[i].role == RoleName(messages[i].role) && rs[i].content == messages[i].content
  {
    if |messages| == 0 then []
    else
      var m := messages[|messages| - 1];
      ConvertMessagesToRequestFormat(messages[..|messages| - 1]) + [RequestMessage(RoleName(m.role), m.content)]
  }

  /** Reads messages back from the request format; `None` if a role is unknown. */
  function RestoreMessages(rs: seq<RequestMessage>): (r: Option<seq<Message>>)
    ensures r.Some? ==> |r.value| == |rs|
  {
    if |rs| == 0 then Some([])
    else
      match (RestoreMessages(rs[..|rs| - 1]), ParseRole(rs[|rs| - 1].role))
      case (Some(init), Some(role)) => Some(init + [Message(role, rs[|rs| - 1].content)])
      case _ => None
  }

  /** Nothing is lost in the conversion: the messages can be read back. */
  lemma {:induction false} RestoreConverted(messages: seq<Message>)
    ensures RestoreMessages(ConvertMessagesToRequestFormat(messages)) == Some(messages)
  {
    if |messages| > 0 {
      var n := |messages| - 1;
      var rs := ConvertMessagesToRequestFormat(messages);
      assert rs[..n] == ConvertMessagesToRequestFormat(messages[..n]);
      RestoreConverted(messages[..n]);
      assert ParseRole(rs[n].role) == Some(messages[n].role) by {
        match messages[n].role
        case User =>
        case System =>
        case Assistant =>
        case Tool =>
      }
      assert messages[..n] + [messages[n]] == messages;
    }
  }

  /** Whatever reads back is exactly what converts to the request. */
  lemma {:induction false} ConvertRestored(rs: seq<RequestMessage>)
    requires RestoreMessages(rs).Some?
    ensures ConvertMessagesToRequestFormat(RestoreMessages(rs).value) == rs
  {
    if |rs| > 0 {
      var n := |rs| - 1;
      ConvertRestored(rs[..n]);
      var ms := RestoreMessages(rs).value;
      assert ms[..n] == RestoreMessages(rs[..n]).value;
      assert rs[..n] + [rs[n]] == rs;
    }
  }

  // ----- The request -----

  /** `LLMGenerationOptions`. */
  datatype GenerationOptions = GenerationOptions(
    maxTokens: Option<Number>,
    temperature: Option<Number>,
    topP: Option<Number>,
    frequencyPenalty: Option<Number>,
    presencePenalty: Option<Number>,
    stopSequences: Option<seq<string>>)

  /** The provider's private fields, set once by its constructor. */
  datatype AzureOpenAIProvider = AzureOpenAIProvider(apiKey: string, deployment: string, endpoint: string)

  /** What goes to `fetch`: the URL, the headers and the request body, held as
      the converted messages and the option keys spread after them. */
  datatype ProviderRequest = ProviderRequest(
    url: string,
    headers: map<string, string>,
    messages: seq<RequestMessage>,
    options: map<string, Json>)

  /** The network: what `fetch` answers to a request. */
  type ProviderFetch = ProviderRequest -> Http.Response

  /** The URL: under the endpoint, followed by the fixed API version. */
  function Url(p: AzureOpenAIProvider): (u: string)
    ensures |u| >= |p.endpoint| + |AzureOpenAI.COMPLETIONS_PATH + API_VERSION|
    ensures u[..|p.endpoint|] == p.endpoint
    ensures u[|u| - |AzureOpenAI.COMPLETIONS_PATH + API_VERSION|..] == AzureOpenAI.COMPLETIONS_PATH + API_VERSION
  {
    p.endpoint + "/openai/deployments/" + p.deployment + AzureOpenAI.COMPLETIONS_PATH + API_VERSION
  }

  /** The headers: the JSON content type and the API key, and nothing else. */
  function Headers(p: AzureOpenAIProvider): (h: map<string, string>)
    ensures h.Keys == {Http.CONTENT_TYPE, "api-key"}
    ensures h[Http.CONTENT_TYPE] == Http.JSON_MEDIA_TYPE && h["api-key"] == p.apiKey
  {
    map[Http.CONTENT_TYPE := Http.JSON_MEDIA_TYPE, "api-key" := p.apiKey]
  }

  /** The option keys of the request body: each numeric option under its wire
      name when it is truthy, `stop` whenever stop sequences are given, and
      nothing when no options are given. */
  function OptionsBody(options: Option<GenerationOptions>): (r: map<string, Json>)
    ensures r.Keys <= {"temperature", "top_p", "max_tokens", "frequency_penalty", "presence_penalty", "stop"}
    ensures options.None? ==> r == map[]
    ensures options.Some? ==>
              var o := options.value;
              && ("temperature" in r <==> Models.Given(o.temperature))
              && ("temperature" in r ==> r["temperature"] == JNum(o.temperature.value))
              && ("top_p" in r <==> Models.Given(o.topP))
              && ("top_p" in r ==> r["top_p"] == JNum(o.topP.value))
              && ("max_tokens" in r <==> Models.Given(o.maxTokens))
              && ("max_tokens" in r ==> r["max_tokens"] == JNum(o.maxTokens.value))
              && ("frequency_penalty" in r <==> Models.Given(o.frequencyPenalty))
              && ("frequency_penalty" in r ==> r["frequency_penalty"] == JNum(o.frequencyPenalty.value))
              && ("presence_penalty" in r <==> Models.Given(o.presencePenalty))
              && ("presence_penalty" in r ==> r["presence_penalty"] == JNum(o.presencePenalty.value))
              && ("stop" in r <==> o.stopSequences.Some?)
              && ("stop" in r ==> r["stop"] == JArr(AzureOpenAI.StringsPayload(o.stopSequences.value)))
  {
    if options.None? then map[]
    else
      var o := options.value;
      var r := map[];
      var r := AzureOpenAI.Put(r, Models.Given(o.temperature), "temperature", AzureOpenAI.NumberOr(o.temperature));
      var r := AzureOpenAI.Put(r, Models.Given(o.topP), "top_p", AzureOpenAI.NumberOr(o.topP));
      var r := AzureOpenAI.Put(r, Models.Given(o.maxTokens), "max_tokens", AzureOpenAI.NumberOr(o.maxTokens));
      var r := AzureOpenAI.Put(r, Models.Given(o.frequencyPenalty), "frequency_penalty",
                               AzureOpenAI.NumberOr(o.frequencyPenalty));
      var r := AzureOpenAI.Put(r, Models.Given(o.presencePenalty), "presence_penalty",
                               AzureOpenAI.NumberOr(o.presencePenalty));
      AzureOpenAI.Put(r, o.stopSequences.Some?, "stop",
                      if o.stopSequences.Some? then JArr(AzureOpenAI.StringsPayload(o.stopSequences.value)) else JNull)
  }

  /** The SDK options with the same values and no seed. */
  function AsOptions(o: GenerationOptions): Models.Options {
    Models.Options(o.maxTokens, o.temperature, o.topP, o.frequencyPenalty, o.presencePenalty, o.stopSequences, None)
  }

  /** The provider sends the same option keys as the older adapter's
      `formatOptionsPayload`, and the current adapter's less `seed`. */
  lemma OptionsAsAdapters(o: GenerationOptions)
    ensures OptionsBody(Some(o)) == LegacyAzureOpenAI.FormatOptionsPayload(AsOptions(o))
    ensures OptionsBody(Some(o)) == AzureOpenAI.FormatOptionsPayload(AsOptions(o))
  {
    var legacy := LegacyAzureOpenAI.FormatOptionsPayload(AsOptions(o));
    var current := AzureOpenAI.FormatOptionsPayload(AsOptions(o));
    assert "seed" !in current;
    assert legacy == current;
  }

  /** The request `generateText` sends: every message reduced to its role and
      content, in order; only option keys after them; the JSON content type
      and the API key as the only headers. */
  function BuildRequest(p: AzureOpenAIProvider, messages: seq<Message>, options: Option<GenerationOptions>): (r: ProviderRequest)
    ensures r.url == Url(p)
    ensures RestoreMessages(r.messages) == Some(messages)
    ensures r.options == OptionsBody(options)
    ensures r.options.Keys !! {"messages"}
    ensures r.headers.Keys == {Http.CONTENT_TYPE, "api-key"}
    ensures r.headers[Http.CONTENT_TYPE] == Http.JSON_MEDIA_TYPE && r.headers["api-key"] == p.apiKey
  {
    RestoreConverted(messages);

    ProviderRequest(Url(p), Headers(p), ConvertMessagesToRequestFormat(messages), OptionsBody(options))
  }

  /** The URL names the deployment under the endpoint and the fixed API
      version, as the older adapter's does when no version is given. */
  lemma RequestURL(p: AzureOpenAIProvider)
    ensures Url(p) == p.endpoint + "/openai/deployments/" + p.deployment
                      + "/chat/completions?api-version=2025-01-01-preview"
    ensures Url(p) == LegacyAzureOpenAI.GetURL(
                        LegacyAzureOpenAI.New(LegacyAzureOpenAI.ServiceParams(p.apiKey, p.deployment, p.endpoint, None)))
  {
  }

  /** The headers are the content type and the API key, as the older
      adapter's request carries them. */
  lemma RequestHeaders(p: AzureOpenAIProvider)
    ensures Headers(p).Keys == {Http.CONTENT_TYPE, "api-key"}
    ensures Headers(p)[Http.CONTENT_TYPE] == Http.JSON_MEDIA_TYPE && Headers(p)["api-key"] == p.apiKey
    ensures var legacy := LegacyAzureOpenAI.New(LegacyAzureOpenAI.ServiceParams(p.apiKey, p.deployment, p.endpoint, None));
            Headers(p) == Http.SendHeaders(LlmService.LegacyAzureAdapter(legacy))
  {
    var legacy := LegacyAzureOpenAI.New(LegacyAzureOpenAI.ServiceParams(p.apiKey, p.deployment, p.endpoint, None));
    assert LlmService.LegacyAzureAdapter(legacy).headers == map["api-key" := p.apiKey];
    LlmService.KeyHeaderSent(p.apiKey);
  }

  // ----- The response -----

  /** `TextResponse` as this provider returns it. `text` is the first choice's
      `content`, which the provider answers with `null` when it calls tools. */
  datatype ProviderTextResponse = ProviderTextResponse(
    text: Option<string>,
    usage: Models.Usage,
    finishReason: string,
    toolCalls: seq<Models.ToolCall>)

  /** The fields `generateText` extracts from a response body. */
  function Extract(data: AzureChat.Completion): (r: Result<ProviderTextResponse, Models.Error>)
    ensures r.Failure? <==> |data.choices| == 0
    ensures r.Failure? ==> r.error == AzureChat.NO_CHOICE
    ensures r.Success? ==>
              && r.value.text == data.choices[0].message.content
              && r.value.finishReason == data.choices[0].finishReason
              && r.value.usage == Models.Usage(data.usage.promptTokens, data.usage.completionTokens, data.usage.totalTokens)
              && r.value.toolCalls == []
  {
    if |data.choices| == 0 then Failure(AzureChat.NO_CHOICE)
    else
      var choice := data.choices[0];
      Success(ProviderTextResponse(
        choice.message.content,
        Models.Usage(data.usage.promptTokens, data.usage.completionTokens, data.usage.totalTokens),
        choice.finishReason,
        []))
  }

  /** `generateText`: send the request and extract the first choice, whether
      or not the response is ok. */
  function GenerateText(p: AzureOpenAIProvider, fetch: ProviderFetch, messages: seq<Message>,
                        options: Option<GenerationOptions>): (r: Result<ProviderTextResponse, Models.Error>)
    ensures var data := fetch(BuildRequest(p, messages, options)).body;
            && (r.Failure? <==> |data.choices| == 0)
            && (r.Failure? ==> r.error == AzureChat.NO_CHOICE)
            && (r.Success? ==>
                  && r.value.text == data.choices[0].message.content
                  && r.value.finishReason == data.choices[0].finishReason
                  && r.value.usage == Models.Usage(data.usage.promptTokens, data.usage.completionTokens, data.usage.totalTokens)
                  && r.value.toolCalls == [])
  {
    var response := fetch(BuildRequest(p, messages, options));
    Extract(response.body)
  }

  /** The provider reads what the adapters' `parseAssistantResponse` reads,
      except that it drops the tool calls: the same failure, the same
      content, usage and finish reason. */
  lemma ExtractAsParse(data: AzureChat.Completion)
    ensures Extract(data).Success? <==> AzureChat.ParseAssistantResponse(data).Success?
    ensures Extract(data).Failure? ==> Extract(data).error == AzureChat.ParseAssistantResponse(data).error
    ensures Extract(data).Success? ==>
              var parsed := AzureChat.ParseAssistantResponse(data).value;
              && (Extract(data).value.text.None? <==> parsed.message.content == Models.NoContent)
              && (Extract(data).value.text.Some? ==>
                    parsed.message.content == Models.AssistantText(Extract(data).value.text.value))
              && Extract(data).value.usage == parsed.usage
              && Extract(data).value.finishReason == parsed.finishReason
              && Extract(data).value.toolCalls == []
  {
  }

  /** The status is never looked at: a failed response is read like a
      successful one with the same body. */
  lemma StatusIgnored(p: AzureOpenAIProvider, fetch: ProviderFetch, fetch': ProviderFetch, messages: seq<Message>,
                      options: Option<GenerationOptions>)
    requires fetch(BuildRequest(p, messages, options)).body == fetch'(BuildRequest(p, messages, options)).body
    ensures GenerateText(p, fetch, messages, options) == GenerateText(p, fetch', messages, options)
  {
  }

  // ----- The conversations of the provider's unit tests -----

  const ASSISTANT_PROMPT := "You are a helpful assistant."
  const LANDMARK_URL := "https://example.com/landmark.jpg"

  /** A text conversation converts to the same roles and strings. */
  lemma SimpleConversation()
    ensures ConvertMessagesToRequestFormat([
              Message(System, Text(ASSISTANT_PROMPT)),
              Message(User, Text("Hello, how are you?")),
              Message(Assistant, Text("I am fine, thank you!"))])
            == [RequestMessage("system", Text(ASSISTANT_PROMPT)),
                RequestMessage("user", Text("Hello, how are you?")),
                RequestMessage("assistant", Text("I am fine, thank you!"))]
  {
  }

  /** A user message with a text and an image segment keeps both segments. */
  lemma MultimodalConversation()
    ensures var segments := [UserTextSegment("Can you identify this landmark?"),
                             ImageSegment(Models.ImageString(LANDMARK_URL), Some("image/jpeg"))];
            ConvertMessagesToRequestFormat([
              Message(System, Text(ASSISTANT_PROMPT)),
              Message(User, UserSegments(segments)),
              Message(Assistant, Text("That appears to be the Eiffel Tower in Paris."))])
            == [RequestMessage("system", Text(ASSISTANT_PROMPT)),
                RequestMessage("user", UserSegments(segments)),
                RequestMessage("assistant", Text("That appears to be the Eiffel Tower in Paris."))]
  {
  }
}
