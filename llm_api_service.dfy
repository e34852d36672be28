/** `LLMApiService.createAssistantMessage`: the exchange of the current
    transport base, which also records the request (with credentials
    removed from its headers) and the response. */
module LlmApiService {
  import opened Wrappers
  import opened Json
  import opened Models
  import opened AzureChat
  import opened Http
  import AzureOpenAI

  datatype RecordedRequest = RecordedRequest(body: map<string, Json>, headers: map<string, string>)
  datatype RecordedResponse = RecordedResponse(body: Completion, headers: map<string, string>)

  /** `LLMApiResponse`: the parsed turn and what went over the wire. */
  datatype ApiResponse = ApiResponse(
    message: AssistantTurn,
    usage: Usage,
    finishReason: FinishReason,
    request: RecordedRequest,
    response: RecordedResponse)

  /** `toLowerCase` on the characters that can lower-case to ASCII: the ASCII
      capitals and the Kelvin sign, which becomes `k`. Other characters are
      kept; their lower-case forms are never ASCII, so whether a header name
      lower-cases to an ASCII name is decided exactly. */
  function LowerChar(c: char): char {
    if 'A' <= c <= 'Z' then (c as int + 32) as char
    else if c == '\U{212A}' then 'k'
    else c
  }

  /** A character that lower-cases to another one. */
  predicate Capital(c: char) {
    'A' <= c <= 'Z' || c == '\U{212A}'
  }

  /** The result has no capital left; an ASCII capital becomes the same
      letter in lower case, the Kelvin sign becomes `k`, and every other
      character is kept. */
  function Lower(s: string): (r: string)
    ensures |r| == |s|
    ensures forall i :: 0 <= i < |r| ==> !Capital(r[i])
    ensures forall i :: 0 <= i < |s| && !Capital(s[i]) ==> r[i] == s[i]
    ensures forall i :: 0 <= i < |s| && 'A' <= s[i] <= 'Z' ==>
              'a' <= r[i] <= 'z' && r[i] as int - 'a' as int == s[i] as int - 'A' as int
    ensures forall i :: 0 <= i < |s| && s[i] == '\U{212A}' ==> r[i] == 'k'
  {
    seq(|s|, i requires 0 <= i < |s| => LowerChar(s[i]))
  }

  /** Lowering twice is lowering once: a lowered name is its own lower case. */
  lemma LowerIdempotent(s: string)
    ensures Lower(Lower(s)) == Lower(s)
  {
    var r := Lower(s);
    assert forall i :: 0 <= i < |r| ==> Lower(r)[i] == r[i];
  }

  /** A name of another length than both credentials is not sensitive. */
  lemma NotSensitiveByLength(name: string)
    requires |name| != |"authorization"| && |name| != |"api-key"|
    ensures !Sensitive(name)
  {
    assert |Lower(name)| == |name|;
  }

  /** A header whose name is `authorization` or `api-key` in any case. */
  predicate Sensitive(name: string) {
    Lower(name) == "authorization" || Lower(name) == "api-key"
  }

  /** The recorded headers: the sent headers without the sensitive ones. */
  function FilterSensitive(headers: map<string, string>): (r: map<string, string>)
    ensures forall k :: k in r <==> k in headers && !Sensitive(k)
    ensures forall k :: k in r ==> r[k] == headers[k]
  {
    map k | k in headers && !Sensitive(k) :: headers[k]
  }

  /** `createAssistantMessage`. */
  function CreateAssistantMessage(adapter: Adapter, fetch: Fetch, messages: seq<Message>, tools: Option<seq<Tool>>,
                                  options: Option<Options>): (r: Result<ApiResponse, Error>)
    ensures r.Success? <==> Exchange(adapter, fetch, messages, tools, options).Success?
    ensures r.Failure? ==> r.error == Exchange(adapter, fetch, messages, tools, options).error
    ensures r.Success? ==>
              var (request, response, parsed) := Exchange(adapter, fetch, messages, tools, options).value;
              && r.value.message == parsed.message
              && r.value.usage == parsed.usage
              && r.value.finishReason == parsed.finishReason
              && r.value.request.body == request.body
              && (forall k :: k in r.value.request.headers <==> k in request.headers && !Sensitive(k))
              && r.value.response == RecordedResponse(response.body, response.headers)
  {
    match Exchange(adapter, fetch, messages, tools, options)
    case Failure(e) => Failure(e)
    case Success((request, response, parsed)) =>
      Success(ApiResponse(parsed.message, parsed.usage, parsed.finishReason,
                          RecordedRequest(request.body, FilterSensitive(request.headers)),
                          RecordedResponse(response.body, response.headers)))
  }

  /** The recorded headers are the sent ones, minus every credential: no
      recorded name lower-cases to `authorization` or `api-key`, every other
      sent header is kept with its value, and the content type is always
      recorded. */
  lemma RecordedHeadersOmitCredentials(adapter: Adapter, fetch: Fetch, messages: seq<Message>,
                                       tools: Option<seq<Tool>>, options: Option<Options>)
    requires CreateAssistantMessage(adapter, fetch, messages, tools, options).Success?
    ensures var recorded := CreateAssistantMessage(adapter, fetch, messages, tools, options).value.request.headers;
            var sent := SendHeaders(adapter);
            && (forall k :: k in recorded ==> Lower(k) != "authorization" && Lower(k) != "api-key")
            && (forall k :: k in sent && !Sensitive(k) ==> k in recorded && recorded[k] == sent[k])
            && CONTENT_TYPE in recorded
  {
    var request := Exchange(adapter, fetch, messages, tools, options).value.0;
    assert request.headers == SendHeaders(adapter);
    var recorded := CreateAssistantMessage(adapter, fetch, messages, tools, options).value.request.headers;
    assert recorded == FilterSensitive(request.headers);
    NotSensitiveByLength(CONTENT_TYPE);
  }

  /** Header names match in any case, the Kelvin sign included. */
  lemma SensitiveNames()
    ensures Sensitive("API-Key") && Sensitive("AUTHORIZATION") && Sensitive("API-\U{212A}EY")
    ensures !Sensitive("Content-Type") && !Sensitive("api_key")
  {
    assert Lower("API-Key") == "api-key";
    assert Lower("AUTHORIZATION") == "authorization";
    assert Lower("API-\U{212A}EY") == "api-key";
    NotSensitiveByLength("Content-Type");
    assert Lower("api_key")[3] == '_';
  }

  // ----- The current Azure adapter behind this base -----

  /** The current Azure adapter's implementation of the hooks. Message
      serialisation throws only on a user part the adapter cannot send. */
  function AzureAdapter(s: AzureOpenAI.AzureOpenAIService): (adapter: Adapter)
    ensures forall m: Message :: adapter.formatMessage(m).Failure? ==>
              m.UserMessage? && m.userContent.UserParts? && adapter.formatMessage(m).error == AzureOpenAI.INVALID_PART
    ensures forall m: Message :: !m.UserMessage? ==> adapter.formatMessage(m).Success?
  {
    Adapter(AzureOpenAI.GetURL(s), AzureOpenAI.GetHeaders(s), AzureOpenAI.FormatMessagePayload,
            AzureChat.FormatToolCallPayload, AzureOpenAI.FormatOptionsPayload, ParseAssistantResponse)
  }

  /** The current Azure adapter's request body holds the serialised
      conversation under `messages`, and the tools under `tools` exactly when
      there are some: no option key clashes with them. */
  lemma AzureRequestBody(s: AzureOpenAI.AzureOpenAIService, messages: seq<Message>, tools: seq<Tool>, options: Options)
    requires BuildRequest(AzureAdapter(s), messages, Some(tools), Some(options)).Success?
    ensures var body := BuildRequest(AzureAdapter(s), messages, Some(tools), Some(options)).value.body;
            && body["messages"] == JArr(MessagesPayload(AzureOpenAI.FormatMessagePayload, messages).value)
            && ("tools" in body <==> |tools| > 0)
            && (|tools| > 0 ==> body["tools"] == JArr(ToolsPayload(AzureChat.FormatToolCallPayload, tools)))
            && (forall k :: k in body && k != "messages" && k != "tools" ==> k in AzureOpenAI.FormatOptionsPayload(options))
  {
    var opts := AzureOpenAI.FormatOptionsPayload(options);
    assert "messages" !in opts && "tools" !in opts;
  }

  /** With an endpoint configuration and a non-empty key, the API key is sent
      but not recorded: the recorded headers are the content type alone. */
  lemma AzureKeySentNotRecorded(s: AzureOpenAI.AzureOpenAIService, fetch: Fetch, messages: seq<Message>,
                                tools: seq<Tool>, options: Options)
    requires s.headers.None? && s.apiKey.Some? && s.apiKey.value != ""
    requires CreateAssistantMessage(AzureAdapter(s), fetch, messages, Some(tools), Some(options)).Success?
    ensures BuildRequest(AzureAdapter(s), messages, Some(tools), Some(options)).value.headers
            == map[CONTENT_TYPE := JSON_MEDIA_TYPE, "api-key" := s.apiKey.value]
    ensures CreateAssistantMessage(AzureAdapter(s), fetch, messages, Some(tools), Some(options)).value.request.headers
            == map[CONTENT_TYPE := JSON_MEDIA_TYPE]
  {
    var sent := SendHeaders(AzureAdapter(s));
    assert sent == map[CONTENT_TYPE := JSON_MEDIA_TYPE, "api-key" := s.apiKey.value];
    var request := Exchange(AzureAdapter(s), fetch, messages, Some(tools), Some(options)).value.0;
    assert request.headers == sent;
    KeyHeaderFiltered(s.apiKey.value);
  }

  lemma KeyHeaderFiltered(key: string)
    ensures FilterSensitive(map[CONTENT_TYPE := JSON_MEDIA_TYPE, "api-key" := key]) == map[CONTENT_TYPE := JSON_MEDIA_TYPE]
  {
    assert Lower("api-key") == "api-key";
    NotSensitiveByLength(CONTENT_TYPE);
  }
}
