/** `LLMService.createAssistantMessage` and `LLMProvider.createAssistantMessage`,
    the older transport bases. They run the same exchange as `LLMApiService`
    (the second one names its hooks `getRequestHeaders`, `transformMessage`,
    `transformToolCall`, `transformOptions` and `transformMessageResponse`),
    but return the parsed turn alone. */
module LlmService {
  import opened Wrappers
  import opened Json
  import opened Models
  import opened AzureChat
  import opened Http
  import LlmApiService
  import LegacyAzureOpenAI
  import AzureOpenAI

  /** `createAssistantMessage`: the parsed turn, or the error of the
      serialisation, of a non-ok response, or of the parser. */
  function CreateAssistantMessage(adapter: Adapter, fetch: Fetch, messages: seq<Message>, tools: Option<seq<Tool>>,
                                  options: Option<Options>): (r: Result<AssistantResponse, Error>)
    ensures BuildRequest(adapter, messages, tools, options).Failure? ==>
              r == Failure(MessagesPayload(adapter.formatMessage, messages).error)
    ensures BuildRequest(adapter, messages, tools, options).Success? ==>
              var response := fetch(BuildRequest(adapter, messages, tools, options).value);
              && (!response.ok ==> r == Failure(FAILED + response.statusText))
              && (response.ok ==> r == adapter.parse(response.body))
  {
    match Exchange(adapter, fetch, messages, tools, options)
    case Failure(e) => Failure(e)
    case Success((_, _, parsed)) => Success(parsed)
  }

  /** The older bases return what the current one returns, without the
      request and response records. */
  lemma AgreesWithApiService(adapter: Adapter, fetch: Fetch, messages: seq<Message>, tools: Option<seq<Tool>>,
                             options: Option<Options>)
    ensures var old' := CreateAssistantMessage(adapter, fetch, messages, tools, options);
            var current := LlmApiService.CreateAssistantMessage(adapter, fetch, messages, tools, options);
            && (old'.Success? <==> current.Success?)
            && (old'.Failure? ==> old'.error == current.error)
            && (old'.Success? ==>
                  old'.value == AssistantResponse(current.value.message, current.value.usage, current.value.finishReason))
  {
  }

  // ----- The older Azure adapter behind this base -----

  /** The older Azure adapter's implementation of the hooks; its serialisation never throws. */
  function LegacyAzureAdapter(s: LegacyAzureOpenAI.AzureOpenAIService): (adapter: Adapter)
    ensures forall m :: adapter.formatMessage(m).Success?
  {
    Adapter(LegacyAzureOpenAI.GetURL(s), LegacyAzureOpenAI.GetHeaders(s),
            (m: Message) => Success(LegacyAzureOpenAI.FormatMessagePayload(m)),
            AzureChat.FormatToolCallPayload, LegacyAzureOpenAI.FormatOptionsPayload, ParseAssistantResponse)
  }

  /** With the older Azure adapter the request always goes out, to the
      adapter's URL, with the content type and the API key. */
  lemma LegacyAzureRequest(s: LegacyAzureOpenAI.AzureOpenAIService, messages: seq<Message>,
                           tools: Option<seq<Tool>>, options: Option<Options>)
    ensures BuildRequest(LegacyAzureAdapter(s), messages, tools, options).Success?
    ensures var request := BuildRequest(LegacyAzureAdapter(s), messages, tools, options).value;
            && request.url == LegacyAzureOpenAI.GetURL(s)
            && request.headers == map[CONTENT_TYPE := JSON_MEDIA_TYPE, "api-key" := s.apiKey]
  {
    var adapter := LegacyAzureAdapter(s);
    assert MessagesPayload(adapter.formatMessage, messages).Success?;
    assert adapter.headers == map["api-key" := s.apiKey];
    KeyHeaderSent(s.apiKey);
  }

  lemma KeyHeaderSent(key: string)
    ensures map[CONTENT_TYPE := JSON_MEDIA_TYPE] + map["api-key" := key] == map[CONTENT_TYPE := JSON_MEDIA_TYPE, "api-key" := key]
  {
  }

  /** The older Azure adapter's body holds one payload per message and never a `seed`. */
  lemma LegacyAzureBody(s: LegacyAzureOpenAI.AzureOpenAIService, messages: seq<Message>,
                        tools: Option<seq<Tool>>, options: Option<Options>)
    ensures Body(LegacyAzureAdapter(s), messages, tools, options).Success?
    ensures var body := Body(LegacyAzureAdapter(s), messages, tools, options).value;
            && body["messages"].JArr? && |body["messages"].items| == |messages|
            && "seed" !in body
  {
    var adapter := LegacyAzureAdapter(s);
    var payloads := MessagesPayload(adapter.formatMessage, messages);
    assert payloads.Success?;
    var opts := OptionsPart(adapter, options);
    assert "messages" !in opts && "seed" !in opts by {
      if options.Some? {
        assert opts == AzureOpenAI.FormatOptionsPayload(options.value) - {"seed"};
      }
    }
    var body := Body(adapter, messages, tools, options).value;
    assert body["messages"] == JArr(payloads.value);
  }

  /** With the older Azure adapter the result is the status error of a
      non-ok response, or else the parsed first choice. */
  lemma LegacyAzureExchange(s: LegacyAzureOpenAI.AzureOpenAIService, fetch: Fetch, messages: seq<Message>,
                            tools: Option<seq<Tool>>, options: Option<Options>)
    ensures BuildRequest(LegacyAzureAdapter(s), messages, tools, options).Success?
    ensures var response := fetch(BuildRequest(LegacyAzureAdapter(s), messages, tools, options).value);
            CreateAssistantMessage(LegacyAzureAdapter(s), fetch, messages, tools, options)
            == (if response.ok then ParseAssistantResponse(response.body) else Failure(FAILED + response.statusText))
  {
    assert MessagesPayload(LegacyAzureAdapter(s).formatMessage, messages).Success?;
  }
}
