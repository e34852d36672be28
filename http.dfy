/** What the abstract transport bases (`LLMApiService`, `LLMService`,
    `LLMProvider`) share: the hooks a concrete adapter supplies, the request
    they assemble from them, and the HTTP exchange as a function. */
module Http {
  import opened Wrappers
  import opened Json
  import opened Models
  import opened AzureChat

  /** A POST request: URL, headers and the body before `JSON.stringify`. */
  datatype Request = Request(url: string, headers: map<string, string>, body: map<string, Json>)

  /** What `fetch` resolves to, read through `response.ok`,
      `response.statusText`, `response.json()` and `response.headers`. */
  datatype Response = Response(ok: bool, statusText: string, body: Completion, headers: map<string, string>)

  /** The network: `fetch` as a function of the request. */
  type Fetch = Request -> Response

  /** The abstract members a concrete adapter implements: `getURL`,
      `getHeaders` (`getRequestHeaders`), `formatMessagePayload`
      (`transformMessage`), `formatToolCallPayload` (`transformToolCall`),
      `formatOptionsPayload` (`transformOptions`) and `parseAssistantResponse`
      (`transformMessageResponse`). A hook that throws yields `Failure`. */
  datatype Adapter = Adapter(
    url: string,
    headers: map<string, string>,
    formatMessage: Message -> Result<Json, Error>,
    formatTool: Tool -> Json,
    formatOptions: Options -> map<string, Json>,
    parse: Completion -> Result<AssistantResponse, Error>)

  const CONTENT_TYPE := "Content-Type"
  const JSON_MEDIA_TYPE := "application/json"
  const FAILED := "Failed to generate text: "

  /** The headers sent: the JSON content type, overlaid by the adapter's
      headers, so an adapter header of the same name wins. */
  function SendHeaders(adapter: Adapter): (h: map<string, string>)
    ensures h.Keys == adapter.headers.Keys + {CONTENT_TYPE}
    ensures forall k :: k in adapter.headers ==> h[k] == adapter.headers[k]
    ensures CONTENT_TYPE !in adapter.headers ==> h[CONTENT_TYPE] == JSON_MEDIA_TYPE
  {
    map[CONTENT_TYPE := JSON_MEDIA_TYPE] + adapter.headers
  }

  /** `messages.map(formatMessagePayload)`: every message in order, unless one
      of them throws. */
  function MessagesPayload(format: Message -> Result<Json, Error>, messages: seq<Message>): (r: Result<seq<Json>, Error>)
    ensures r.Success? <==> forall i :: 0 <= i < |messages| ==> format(messages[i]).Success?
    ensures r.Success? ==> |r.value| == |messages| && forall i :: 0 <= i < |messages| ==> format(messages[i]) == Success(r.value[i])
  {
    if |messages| == 0 then Success([])
    else
      match MessagesPayload(format, messages[..|messages| - 1])
      case Failure(e) => Failure(e)
      case Success(init) =>
        match format(messages[|messages| - 1])
        case Failure(e) => Failure(e)
        case Success(last) => Success(init + [last])
  }

  /** When a message cannot be serialised, the error is the first such
      message's, as `map` stops at the first throw. */
  lemma {:induction false} FirstFormatErrorWins(format: Message -> Result<Json, Error>, messages: seq<Message>)
    requires MessagesPayload(format, messages).Failure?
    ensures exists i :: 0 <= i < |messages| && format(messages[i]) == Failure(MessagesPayload(format, messages).error) &&
                        forall j :: 0 <= j < i ==> format(messages[j]).Success?
  {
    var n := |messages| - 1;
    var init := messages[..n];
    if MessagesPayload(format, init).Failure? {
      FirstFormatErrorWins(format, init);
      var i :| 0 <= i < |init| && format(init[i]) == Failure(MessagesPayload(format, init).error) &&
               forall j :: 0 <= j < i ==> format(init[j]).Success?;
      assert messages[i] == init[i];
      assert forall j :: 0 <= j < i ==> messages[j] == init[j];
    } else {
      assert forall j :: 0 <= j < n ==> messages[j] == init[j];
      assert format(messages[n]).Failure?;
    }
  }

  /** `tools.map(formatToolCallPayload)`. */
  function ToolsPayload(format: Tool -> Json, tools: seq<Tool>): (js: seq<Json>)
    ensures |js| == |tools| && forall i :: 0 <= i < |tools| ==> js[i] == format(tools[i])
  {
    if |tools| == 0 then [] else ToolsPayload(format, tools[..|tools| - 1]) + [format(tools[|tools| - 1])]
  }

  /** Tools are given and non-empty. */
  predicate SomeTools(tools: Option<seq<Tool>>) {
    tools.Some? && |tools.value| > 0
  }

  /** The options payload, or nothing when no options are given. */
  function OptionsPart(adapter: Adapter, options: Option<Options>): map<string, Json> {
    if options.Some? then adapter.formatOptions(options.value) else map[]
  }

  /** The request body: `messages`, then `tools` when tools are given and
      non-empty, then the options payload when options are given; a later key
      overrides an earlier one. */
  function Body(adapter: Adapter, messages: seq<Message>, tools: Option<seq<Tool>>, options: Option<Options>): (r: Result<map<string, Json>, Error>)
    ensures r.Success? <==> MessagesPayload(adapter.formatMessage, messages).Success?
    ensures r.Failure? ==> r == Failure(MessagesPayload(adapter.formatMessage, messages).error)
    ensures r.Success? ==>
              var opts := OptionsPart(adapter, options);
              && r.value.Keys == {"messages"} + (if SomeTools(tools) then {"tools"} else {}) + opts.Keys
              && (forall k :: k in opts ==> r.value[k] == opts[k])
              && ("messages" !in opts ==> r.value["messages"] == JArr(MessagesPayload(adapter.formatMessage, messages).value))
              && (SomeTools(tools) && "tools" !in opts ==> r.value["tools"] == JArr(ToolsPayload(adapter.formatTool, tools.value)))
  {
    match MessagesPayload(adapter.formatMessage, messages)
    case Failure(e) => Failure(e)
    case Success(payloads) =>
      var toolsPart := if SomeTools(tools) then map["tools" := JArr(ToolsPayload(adapter.formatTool, tools.value))] else map[];
      Success(map["messages" := JArr(payloads)] + toolsPart + OptionsPart(adapter, options))
  }

  /** The request for a conversation, or the error of its serialisation. */
  function BuildRequest(adapter: Adapter, messages: seq<Message>, tools: Option<seq<Tool>>, options: Option<Options>): (r: Result<Request, Error>)
    ensures r.Success? <==> Body(adapter, messages, tools, options).Success?
    ensures r.Failure? ==> r.error == Body(adapter, messages, tools, options).error
    ensures r.Success? ==> r.value.url == adapter.url && r.value.headers == SendHeaders(adapter)
                           && r.value.body == Body(adapter, messages, tools, options).value
  {
    match Body(adapter, messages, tools, options)
    case Failure(e) => Failure(e)
    case Success(body) => Success(Request(adapter.url, SendHeaders(adapter), body))
  }

  /** The exchange `createAssistantMessage` performs: serialise, send, reject
      a non-ok response with its status text, else parse. Returns the request
      sent and the response received along with the parsed turn. */
  function Exchange(adapter: Adapter, fetch: Fetch, messages: seq<Message>, tools: Option<seq<Tool>>,
                    options: Option<Options>): (r: Result<(Request, Response, AssistantResponse), Error>)
    ensures BuildRequest(adapter, messages, tools, options).Failure? ==>
              r == Failure(BuildRequest(adapter, messages, tools, options).error)
    ensures BuildRequest(adapter, messages, tools, options).Success? ==>
              var request := BuildRequest(adapter, messages, tools, options).value;
              var response := fetch(request);
              && (!response.ok ==> r == Failure(FAILED + response.statusText))
              && (response.ok ==> r.Success? == adapter.parse(response.body).Success?)
              && (response.ok && r.Failure? ==> r.error == adapter.parse(response.body).error)
              && (r.Success? ==> r.value == (request, response, adapter.parse(response.body).value))
  {
    match BuildRequest(adapter, messages, tools, options)
    case Failure(e) => Failure(e)
    case Success(request) =>
      var response := fetch(request);
      if !response.ok then Failure(FAILED + response.statusText)
      else
        match adapter.parse(response.body)
        case Failure(e) => Failure(e)
        case Success(parsed) => Success((request, response, parsed))
  }

  /** A response that is not ok is never parsed: the result is the same
      failure whatever the adapter would have parsed. */
  lemma NotOkNeverParsed(adapter: Adapter, parse': Completion -> Result<AssistantResponse, Error>, fetch: Fetch,
                         messages: seq<Message>, tools: Option<seq<Tool>>, options: Option<Options>)
    requires BuildRequest(adapter, messages, tools, options).Success?
    requires !fetch(BuildRequest(adapter, messages, tools, options).value).ok
    ensures Exchange(adapter, fetch, messages, tools, options)
            == Exchange(adapter.(parse := parse'), fetch, messages, tools, options)
            == Failure(FAILED + fetch(BuildRequest(adapter, messages, tools, options).value).statusText)
  {
    assert BuildRequest(adapter.(parse := parse'), messages, tools, options) == BuildRequest(adapter, messages, tools, options);
  }

  /** A message that cannot be serialised fails the call before anything is sent. */
  lemma NothingSentOnFormatError(adapter: Adapter, fetch: Fetch, fetch': Fetch,
                                 messages: seq<Message>, tools: Option<seq<Tool>>, options: Option<Options>)
    requires MessagesPayload(adapter.formatMessage, messages).Failure?
    ensures Exchange(adapter, fetch, messages, tools, options) == Exchange(adapter, fetch', messages, tools, options)
            == Failure(MessagesPayload(adapter.formatMessage, messages).error)
  {
  }
}
