# llm-sdk core in Dafny

A model of the core of `llm-sdk`, a TypeScript SDK for chat-completion
models, with proofs about it. The core has three layers.

- **The agentic loop `generateText`.** It comes in two generations: `generation/generate-text.ts` over `LLMApiService`, and the older `llm-generation.ts` over `LLMService`. It asks a transport for an assistant turn and appends the turn to the conversation. When the turn requests tool calls, it runs them and appends their tool messages. It stops at the first turn with content, or when `maxSteps` turns have been taken. It then reports the text, the summed usage, every requested tool call, the steps and the conversation.
- **The tool executor `executeToolCalls`.** It looks each requested call up by name and parses its arguments. It silently skips a call with an unknown tool or with arguments that do not parse. Otherwise it runs the tool and emits a `tool` message carrying the call's id. An error raised by a tool propagates.
- **The transports.**
  - Three abstract bases (`LLMApiService`, `LLMService`, `LLMProvider`) assemble a POST request from an adapter's hooks, send it, and reject a non-ok response. The current base also records the request, with credential headers removed, and the response.
  - Two generations of the Azure OpenAI adapter implement those hooks: configuration, URL, headers, message, tool and option payloads, and parsing of a completion.
  - The standalone `AzureOpenAIProvider` does all of it inline.

## Modules

| file | module | models |
|---|---|---|
| `wrappers.dfy` | `Wrappers` | `Option` and `Result` |
| `json.dfy` | `Json` | JSON values and JavaScript number truthiness |
| `models.dfy` | `Models` | messages, tool calls, usage, tools and options of the SDK |
| `tool_service.dfy` | `ToolService` | `executeToolCalls` (both files) |
| `generation.dfy` | `Generation` | `generateText` (both files) |
| `http.dfy` | `Http` | the request assembly and exchange the three bases share |
| `llm_api_service.dfy` | `LlmApiService` | `LLMApiService.createAssistantMessage` and its header filter |
| `llm_service.dfy` | `LlmService` | `LLMService` / `LLMProvider.createAssistantMessage` |
| `azure_chat.dfy` | `AzureChat` | the completion wire format, tool payload, response parsing |
| `azure_openai.dfy` | `AzureOpenAI` | the current Azure adapter |
| `legacy_azure_openai.dfy` | `LegacyAzureOpenAI` | the older Azure adapter |
| `azure_provider.dfy` | `AzureProvider` | `AzureOpenAIProvider` |

### How the model is built

- **The loop and the executor are imperative.**
  - `Generation.GenerateText`, `ToolService.ExecuteToolCalls`, `Generation.AggregateUsage` and `Generation.AggregateToolCalls` are methods with the source's loops.
  - Each is proved equal to a recursive function: `Generate`, `ToolMessages`, `SumUsage` and `AllToolCalls`.
  - The properties are lemmas about those functions.
- **Everything else is pure code** (`map`, spread, conditionals) and is written as functions.
- **Adapters are values.** An adapter's private fields are set once by its constructor and only read afterwards, so each adapter is a datatype value.
- **The bases share one exchange.** Their hooks are the function fields of `Http.Adapter`, and `Http.Exchange` is the exchange they all perform.
- **Environment as parameters.** These become parameters:
  - the transport, as a function of the number of earlier calls and the conversation sent
  - `fetch`, as a function from request to response
  - `JSON.parse`, as a function that answers `None` where it throws
  - a tool's `execute`, as a function field that answers `Failure` where it throws
- **JavaScript semantics are written out.**
  - truthiness: an empty string and `0`/`NaN` are falsy; arrays and objects are truthy
  - `in`: an `Option` field, so a present key is `Some`
  - `||` defaults and destructuring defaults
  - template literals, where an unset field prints `undefined`
  - `toLowerCase`, for the characters that can lower-case to ASCII
  - the `TypeError` of reading `choices[0].message` when there is no choice

### Members that model two files

Some source files repeat another file's code, so one member models both.

- `ToolService.ExecuteToolCalls` also models the module-level `executeToolCalls` of `src/llm-generation.ts` (lines 22-58).
- `Generation.GenerateText` also models the older `generateText` of `src/llm-generation.ts` (lines 60-132), which runs over `LLMService`.
- `LlmService.CreateAssistantMessage` also models `LLMProvider.createAssistantMessage` in `src/llm-provider.ts` (lines 20-47). It is the same procedure with hooks named `getRequestHeaders`, `transformMessage`, `transformToolCall`, `transformOptions` and `transformMessageResponse`.
- `AzureChat.ParseAssistantResponse` also models the older adapter's `parseAssistantResponse` (`src/providers/azure-openai-service.ts`, lines 107-143).
- `AzureChat.FormatToolCallPayload` also models the older adapter's `formatToolCallPayload` (same file, lines 38-48).

The table cites the current file for each.

## Model

| member | source | states |
|---|---|---|
| ToolService.FindTool | src/services/tool.service.ts:14 | the index found holds a tool of that name and no earlier tool has it; `None` exactly when no tool has it |
| ToolService.RunCalls | src/services/tool.service.ts:13-38 | a successful run emits at most one message per request, and every message is a `tool` message |
| ToolService.ExecuteToolCalls | src/services/tool.service.ts:5-41 | the loop's result is the specification `ToolMessages`: `[]` without a tool-call list, at most one message per request otherwise |
| ToolService.RunCallsAppend | src/services/tool.service.ts:13-38 | running a concatenation of requests runs the two stretches in turn: the first error wins, else the messages concatenate |
| ToolService.UnknownToolSkipped | src/services/tool.service.ts:14-19 | a request naming no known tool can be removed without changing the result: no message, no error |
| ToolService.UnparsableArgumentsSkipped | src/services/tool.service.ts:21-28 | a request whose arguments `JSON.parse` rejects can be removed without changing the result, even when its tool exists |
| ToolService.SkippedRequestLeavesNoTrace | src/services/tool.service.ts:14-28 | any request that does not reach its tool leaves no trace |
| ToolService.RunnableIndices | src/services/tool.service.ts:13-28 | lists exactly the requests that reach their tool, in increasing order |
| ToolService.EmittedInRequestOrder | src/services/tool.service.ts:30-37 | a successful run emits one message per runnable request, in request order; each carries that request's id and the result of that request's tool on its parsed arguments |
| ToolService.EmittedStep | src/services/tool.service.ts:30-37 | appending one request extends the emitted messages exactly by that request's message |
| ToolService.FailureFromFirstFailingTool | src/services/tool.service.ts:30 | a failed run failed with the error of a runnable request's tool, after every earlier request had run successfully |
| Generation.GenerateText | src/generation/generate-text.ts:23-96 | the method (empty check, step loop, fallback, reductions) computes exactly `Generate` |
| Generation.AggregateUsage | src/generation/generate-text.ts:70-78 | the accumulator ends as the element-wise sum of all steps' usage |
| Generation.AggregateToolCalls | src/generation/generate-text.ts:81-86 | the accumulator ends as every step's tool calls, concatenated in step order |
| Generation.ReplaysStep | src/generation/generate-text.ts:39-49 | one more step keeps "each step `k` was sent the caller's messages plus what steps before `k` added", and extends what the steps add by the turn and its tool messages |
| Generation.StepKeepsInvariant | src/generation/generate-text.ts:37-58 | one successful iteration keeps the loop invariant: conversation, replay, and no content before the last step |
| Generation.RunStepsInvariant | src/generation/generate-text.ts:37-59 | from any reachable state the loop ends with at most `maxSteps` steps, keeps the earlier steps, and satisfies `Produced`: the conversation, the replay, and silent steps before a last step whose content and finish reason are captured, or none captured when the budget ran out |
| Generation.StoppingStep | src/generation/generate-text.ts:52-56 | a step with content ends the loop after its tool messages, capturing that content and finish reason |
| Generation.ContinuingStep | src/generation/generate-text.ts:58 | a step without content hands over to the next step with the invariant kept |
| Generation.GenerateEnd | src/generation/generate-text.ts:29-59 | a successful loop from the caller's messages takes at most `maxSteps` steps and satisfies `Produced` |
| Generation.EmptyMessagesRejected | src/generation/generate-text.ts:24-26 | an empty message list is rejected with "Messages array cannot be empty." whatever the other arguments |
| Generation.NoBudgetNoCalls | src/generation/generate-text.ts:37 | with `maxSteps <= 0` nothing is called: no text, "stop", zero usage, no tool calls, no steps, the caller's messages |
| Generation.StepBound | src/generation/generate-text.ts:37-59 | at most `maxSteps` steps, and at least one when `maxSteps > 0` |
| Generation.StopsAtFirstText | src/generation/generate-text.ts:52-56 | every step before the last had no content; stopping early means the last step had content; the text and finish reason are the last step's, or `null`/"stop" with no step |
| Generation.FallbackToLastStep | src/generation/generate-text.ts:63-67 | when no step had content, the whole budget was used and the finish reason is the last step's |
| Generation.ConversationGrowth | src/generation/generate-text.ts:29-49 | the conversation is the caller's messages followed, step by step, by each turn and its tool messages, and each transport call was sent the conversation so far |
| Generation.TurnAddsToolMessages | src/generation/generate-text.ts:46-49 | a turn adds its tool messages only when it requests at least one tool call |
| Generation.SumUsageAppend | src/generation/generate-text.ts:70-78 | the usage sum splits over any concatenation of steps |
| Generation.NoToolCallsIffNoneRequested | src/generation/generate-text.ts:81-86 | the aggregated tool calls are empty exactly when no step requested any |
| Generation.AllToolCallsAppend | src/generation/generate-text.ts:81-86 | the aggregated tool calls split over any concatenation of steps |
| Generation.ToolCallsAggregated | src/generation/generate-text.ts:88-95 | `toolCalls` is omitted exactly when no step requested any, and otherwise holds all of them in order |
| Generation.RunStepsFailure | src/generation/generate-text.ts:39-47 | a failed loop failed at a step whose transport call or tool run raised that error, after earlier steps that all succeeded without content |
| Generation.FirstFailureAborts | src/generation/generate-text.ts:39-47 | an error of the transport or a tool aborts the generation with that error, at the first failing step |
| Generation.FirstCallFailure | src/generation/generate-text.ts:39 | a transport that fails on the first call fails the generation with its error |
| Generation.WeatherTwoSteps | tests/unit/generation/generate-text.test.ts:140-197 | the two-step weather conversation gives the answer text, "stop", usage 95/60/155, the one tool call, two steps and a four-message conversation |
| Generation.ToolCallWithDefaultBudget | tests/unit/generation/generate-text.test.ts:96-137 | with the default one step, a tool-only turn gives no text, "tool-calls", that turn's usage, its tool call, one step and a three-message conversation |
| Generation.TextOnFirstStep | tests/unit/generation/generate-text.test.ts:45-69 | a text answer on the first call ends the generation after one step, even with a budget of four |
| Http.SendHeaders | src/services/llm-api.service.ts:24-27 | the content type overlaid by the adapter's headers: adapter values win, and the JSON media type is sent unless overridden |
| Http.MessagesPayload | src/services/llm-api.service.ts:30 | one payload per message in order, exactly when no message's serialisation throws |
| Http.FirstFormatErrorWins | src/services/llm-api.service.ts:30 | the error is that of the first message whose serialisation throws |
| Http.ToolsPayload | src/services/llm-api.service.ts:31 | one tool payload per tool, in order |
| Http.Body | src/services/llm-api.service.ts:29-33 | keys are `messages`, `tools` when tools are given and non-empty, and the option keys, which win on a clash |
| Http.BuildRequest | src/services/llm-api.service.ts:23-33 | the request goes to the adapter's URL with the sent headers and the body, or fails with the serialisation error |
| Http.Exchange | src/services/llm-api.service.ts:35-46 | a non-ok response fails with "Failed to generate text: " and its status text; an ok one is parsed |
| Http.NotOkNeverParsed | src/services/llm-api.service.ts:40-44 | the result of a non-ok response does not depend on the parser |
| Http.NothingSentOnFormatError | src/services/llm-api.service.ts:29-35 | a serialisation error fails the call whatever `fetch` would answer |
| LlmApiService.Lower | src/services/llm-api.service.ts:50 | keeps the length, leaves no capital, lowers each ASCII capital to the same letter and the Kelvin sign to `k`, and keeps every other character |
| LlmApiService.LowerIdempotent | src/services/llm-api.service.ts:50 | lower-casing a lowered name changes nothing |
| LlmApiService.NotSensitiveByLength | src/services/llm-api.service.ts:49-50 | a name of another length than both credential names is never filtered |
| LlmApiService.FilterSensitive | src/services/llm-api.service.ts:48-50 | a header is recorded exactly when its lower-cased name is neither `authorization` nor `api-key`, with its value |
| LlmApiService.CreateAssistantMessage | src/services/llm-api.service.ts:22-63 | fails exactly when the exchange fails, with its error; otherwise the parsed turn, the sent body, the filtered headers and the response body and headers |
| LlmApiService.RecordedHeadersOmitCredentials | src/services/llm-api.service.ts:48-55 | no recorded header is a credential in any case; every other sent header is recorded with its value, the content type included |
| LlmApiService.SensitiveNames | src/services/llm-api.service.ts:49-50 | `API-Key`, `AUTHORIZATION` and `API-` Kelvin-sign `EY` are filtered; `Content-Type` and `api_key` are not |
| LlmApiService.AzureAdapter | src/services/providers/azure-openai.service.ts:30-177 | the current adapter's hooks: message serialisation throws only on a user part it cannot send, with the invalid-part message, and never on a system, assistant or tool message |
| LlmApiService.AzureRequestBody | src/services/providers/azure-openai.service.ts:128-138 | with the current Azure adapter the body keeps the serialised messages, the tools exactly when non-empty, and otherwise only option keys |
| LlmApiService.AzureKeySentNotRecorded | src/services/llm-api.service.ts:24-55 | with an endpoint configuration and a non-empty key the key is sent but the recorded headers are the content type alone |
| LlmApiService.KeyHeaderFiltered | src/services/llm-api.service.ts:49-50 | the filter drops `api-key` and keeps the content type |
| LlmService.CreateAssistantMessage | src/llm-service.ts:20-47 | a serialisation error, "Failed to generate text: " plus the status text for a non-ok response, or the parsed response |
| LlmService.AgreesWithApiService | src/llm-service.ts:20-47 | the older bases succeed exactly when the current one does, with the same error or the same turn, without the records |
| LlmService.LegacyAzureAdapter | src/providers/azure-openai-service.ts:50-94 | the older adapter's message serialisation never throws on the message shapes it is typed for |
| LlmService.LegacyAzureRequest | src/llm-service.ts:21-37 | with the older adapter the request always goes out, to its URL, with the content type and the API key |
| LlmService.LegacyAzureBody | src/providers/azure-openai-service.ts:96-105 | with the older adapter the body has one payload per message and never a `seed` |
| LlmService.LegacyAzureExchange | src/llm-service.ts:38-46 | with the older adapter the result is the status error or the parsed first choice |
| AzureChat.FromWireAll | src/services/providers/azure-openai.service.ts:158-165 | one tool call per wire tool call, in order, each mapping back to it |
| AzureChat.ParseAssistantResponse | src/services/providers/azure-openai.service.ts:140-176 | fails exactly when there is no choice, with the `TypeError`; otherwise the first choice's content (`null` to no content), tool calls exactly when present and in order, the usage counters, and the finish reason |
| AzureChat.ToolCallsPayload | src/services/providers/azure-openai.service.ts:107-116 | one `{id, type, function}` payload per tool call, in order |
| AzureChat.DecodeToolCalls | src/services/providers/azure-openai.service.ts:145 | a decoded list has one wire tool call per payload, each decoded from it |
| AzureChat.ToolCallsPayloadDecodes | src/services/providers/azure-openai.service.ts:107-117 | the tool-call payloads decode back to the wire form of every tool call, in order |
| AzureChat.FromWireToWire | src/services/providers/azure-openai.service.ts:158-165 | parsing the wire form of tool calls gives them back |
| AzureChat.FormatToolCallPayload | src/services/providers/azure-openai.service.ts:71-81 | keys `type` and `function`; name, description and parameters under `function`, with `strict: true` exactly when the tool's `strict` is true |
| AzureOpenAI.New | src/services/providers/azure-openai.service.ts:41-57 | succeeds exactly with a URL or an endpoint configuration, URL first; otherwise the "Invalid parameters" error; an absent or empty `apiVersion` becomes "2025-01-01-preview"; each branch keeps only its own fields |
| AzureOpenAI.GetURL | src/services/providers/azure-openai.service.ts:59-62 | a non-empty configured URL is the address's prefix, and the address always ends with the API-version query; the whole address is stated by `EndpointURL`, `UrlConfigURL` and `EmptyUrlFallsBack` |
| AzureOpenAI.GetHeaders | src/services/providers/azure-openai.service.ts:64-69 | configured headers as they are; else `api-key` exactly when the key is non-empty |
| AzureOpenAI.EndpointURL | src/services/providers/azure-openai.service.ts:44-62 | an endpoint configuration addresses `endpoint/openai/deployments/deployment/chat/completions?api-version=v` |
| AzureOpenAI.UrlConfigURL | src/services/providers/azure-openai.service.ts:45-66 | a URL configuration addresses the URL and sends its headers verbatim |
| AzureOpenAI.EmptyUrlFallsBack | src/services/providers/azure-openai.service.ts:59-62 | an empty URL is falsy, so the address is built from the unset endpoint and deployment: `undefined/openai/deployments/undefined/...` |
| AzureOpenAI.PartsPayload | src/services/providers/azure-openai.service.ts:87-98 | succeeds exactly when every part is text or a string image, mapping each in order; otherwise the "Invalid part type" error |
| AzureOpenAI.SegmentsPayload | src/services/providers/azure-openai.service.ts:104-105 | one `{type: 'text', text}` object per text segment, in order |
| AzureOpenAI.FormatMessagePayload | src/services/providers/azure-openai.service.ts:83-126 | fails exactly on a user part it cannot send; system, tool and user messages map to their exact objects (a user string passes through, user parts become the parts array); an assistant object has only `role`, `content` and `tool_calls`, and gets `tool_calls` (with `content: null`) exactly when its content is falsy and it has tool calls |
| AzureOpenAI.AssistantRoundTrip | src/services/providers/azure-openai.service.ts:103-176 | a string or `null` assistant message, serialised, read back and parsed, is itself exactly when it has no tool-call list, or has no content and a non-empty list |
| AzureOpenAI.ContentOnlyRoundTrip | src/services/providers/azure-openai.service.ts:104-119 | without `tool_calls` the content alone comes back |
| AzureOpenAI.ToolCallsRoundTrip | src/services/providers/azure-openai.service.ts:106-117 | with `tool_calls` no content and every tool call come back, in order |
| AzureOpenAI.StringsPayload | src/services/providers/azure-openai.service.ts:135 | the stop sequences as JSON strings, in order |
| AzureOpenAI.FormatOptionsPayload | src/services/providers/azure-openai.service.ts:128-138 | each numeric option under its wire name exactly when truthy, `stop` exactly when given, and nothing else |
| LegacyAzureOpenAI.New | src/providers/azure-openai-service.ts:12-28 | only an absent `apiVersion` defaults; an empty one is kept |
| LegacyAzureOpenAI.GetURL | src/providers/azure-openai-service.ts:30-32 | the address starts with the endpoint and ends with the API-version query, empty when the version is; `SameURLAsCurrent` compares it with the current adapter's |
| LegacyAzureOpenAI.GetHeaders | src/providers/azure-openai-service.ts:34-36 | only the `api-key` header, with the configured key even when it is empty; `SameHeadersAsCurrent` states when this equals the current adapter's headers |
| LegacyAzureOpenAI.SameURLAsCurrent | src/providers/azure-openai-service.ts:16-32 | the same URL as the current adapter, except for an empty API version, which the current one replaces by its default |
| LegacyAzureOpenAI.SameHeadersAsCurrent | src/providers/azure-openai-service.ts:34-36 | always sends `api-key`; the same headers as the current adapter exactly when the key is non-empty |
| LegacyAzureOpenAI.PartsPayload | src/providers/azure-openai-service.ts:54-61 | every user part in order, images with no check on their type |
| LegacyAzureOpenAI.FormatMessagePayload | src/providers/azure-openai-service.ts:50-94 | never fails; system, tool and user messages map to their exact objects (a user string passes through, user parts become the unchecked parts array); an assistant object has only `role`, `content` and `tool_calls`, and gets `tool_calls` (with `content: null`) exactly when its content is not an array and it has tool calls |
| LegacyAzureOpenAI.AgreesWithCurrent | src/providers/azure-openai-service.ts:66-88 | where the current adapter succeeds both serialise alike, except exactly for an assistant message with both text and tool calls |
| LegacyAzureOpenAI.BinaryImageSent | src/providers/azure-openai-service.ts:58-59 | a binary image, which the current adapter rejects, is sent as it is |
| LegacyAzureOpenAI.ToolCallsWinRoundTrip | src/providers/azure-openai-service.ts:74-85 | a turn with tool calls comes back with every tool call and without its string content |
| LegacyAzureOpenAI.FormatOptionsPayload | src/providers/azure-openai-service.ts:96-105 | the current adapter's options without `seed` |
| AzureProvider.RoleName | src/providers/azure-openai-provider.ts:18 | each role is one of the four wire names |
| AzureProvider.ParseRole | src/providers/azure-openai-provider.ts:18 | a wire name read as a role names that role |
| AzureProvider.ConvertMessagesToRequestFormat | src/providers/azure-openai-provider.ts:17-19 | one record per message in order, with exactly the message's role and content |
| AzureProvider.RestoreMessages | src/providers/azure-openai-provider.ts:17-19 | a read-back list has one message per record |
| AzureProvider.RestoreConverted | src/providers/azure-openai-provider.ts:17-19 | the conversion loses nothing: reading it back gives the messages |
| AzureProvider.ConvertRestored | src/providers/azure-openai-provider.ts:17-19 | whatever reads back converts to exactly those records |
| AzureProvider.OptionsBody | src/providers/azure-openai-provider.ts:26-34 | each numeric option exactly when truthy, `stop` exactly when given, nothing without options |
| AzureProvider.OptionsAsAdapters | src/providers/azure-openai-provider.ts:28-33 | the same option keys and values as the older adapter's `formatOptionsPayload`, and as the current one's without a seed |
| AzureProvider.BuildRequest | src/providers/azure-openai-provider.ts:26-34 | the request goes to `Url(p)`; the body's messages read back as the caller's messages, the option keys follow and never clash with `messages`, and the headers are exactly the JSON content type and the API key |
| AzureProvider.Url | src/providers/azure-openai-provider.ts:23 | the address starts with the endpoint and ends with the fixed API-version query; `RequestURL` states it whole |
| AzureProvider.RequestURL | src/providers/azure-openai-provider.ts:4-23 | `endpoint/openai/deployments/deployment/chat/completions?api-version=2025-01-01-preview`, the older adapter's URL with no version given |
| AzureProvider.Headers | src/providers/azure-openai-provider.ts:39-42 | exactly the JSON content type and the API key; `RequestHeaders` states that the older adapter's request carries the same |
| AzureProvider.RequestHeaders | src/providers/azure-openai-provider.ts:39-42 | exactly the content type and the API key, as the older adapter sends them |
| AzureProvider.Extract | src/providers/azure-openai-provider.ts:47-58 | fails exactly without a choice; otherwise the first choice's content and finish reason, the usage, and no tool calls |
| AzureProvider.GenerateText | src/providers/azure-openai-provider.ts:21-59 | for the body `fetch` answers to the request: fails exactly without a choice; otherwise the first choice's content and finish reason, the usage, and no tool calls |
| AzureProvider.ExtractAsParse | src/providers/azure-openai-provider.ts:50-58 | the adapters' parser fails and succeeds alike and reads the same content, usage and finish reason; only the tool calls are dropped |
| AzureProvider.StatusIgnored | src/providers/azure-openai-provider.ts:37-47 | a response is read the same whatever its status |
| AzureProvider.SimpleConversation | tests/unit/providers/azure-openai-provider.test.ts:16-31 | a text conversation converts to the same roles and strings |
| AzureProvider.MultimodalConversation | tests/unit/providers/azure-openai-provider.test.ts:33-59 | a user message with text and image segments keeps both |

## Left out

- `fetch`, `response.json()`, `response.headers.entries()` and `console.error` are I/O. The response is a record: ok flag, status text, body, headers. A non-ok body is logged and not modelled.
- `await` and the suspension points it creates. The transport and the tools are functions, so every call is modelled as settled.
- The transport receives the live `conversation` array. The model passes the value it has at the time of the call; a transport that keeps the array and reads it later would see later pushes.
- The transport's `tools` and `options` arguments. They are the same on every call of one generation, so they are folded into the transport function.
- JSON serialisation: `JSON.stringify` and key order. Objects are maps. A key set to `undefined` counts as present.
- Malformed bodies are out of scope. The response body is the record the adapters cast to; a body without `choices` or `usage` is not representable.
- Numbers:
  - options are opaque reals or `NaN`; infinities and floating-point arithmetic are not modelled
  - token counts are natural numbers, added without overflow
  - `maxSteps` is an integer; a fractional budget is not modelled
- Images given as `Buffer`, `ArrayBuffer` or `URL` objects. Only strings and byte arrays are modelled.
- Message shapes the TypeScript union rules out are not representable: an unknown role, which the adapters reject with "Invalid message role", and an unknown part type, which the older adapter maps to `undefined`.
- Zod and validation helpers, `function-tool` helpers and `index.ts` re-exports are not part of this model.
- `AzureOpenAIProvider` drops any field of a message other than `role` and `content`. Its message type has no other fields.
- LlmApiService.Lower: handles ASCII capitals and the Kelvin sign only. These are the only characters whose lower case is ASCII, so whether a name lower-cases to `authorization` or `api-key` is decided exactly. Other characters are kept as they are.
- Generation.GenerateText: each step keeps the turn's message, usage and finish reason, not the `request`/`response` records that `LLMApiService.createAssistantMessage` returns with them. The transport is a function to the parsed turn, so the recorded exchange is stated on `LlmApiService.CreateAssistantMessage` alone and is not carried into `steps`.
- The bases pass unbound hooks such as `this.formatMessagePayload` to `map`. This is harmless because the adapters' hooks never read `this`, and the model does not represent `this`.
- The unit tests of `generateText` also read `result.messages` and `result.toolResults`. Neither is a field of the record `generateText` returns, so the worked examples state the `conversation` and the `toolCalls` instead.

## Notes on the code

- The unit test `tests/unit/generation/generate-text.test.ts` (lines 134-135 and 195) reads `result.toolResults`. The code returns no `toolResults` field: the results are only in the conversation, as `tool` messages. The model follows the code.
- The options type `LLMOptions` (`src/models/llm.models.ts`) has no `seed`, yet the current adapter reads `options.seed`. The model gives `Options` a `seed`.
- The older tool type (`src/models/llm-tool-models.ts`) has no `execute`, yet the older loop calls `tool.execute`. The model gives every tool an `execute`.
- The current adapter never throws on `tools.map(this.formatToolCallPayload)`, so only message serialisation can fail before `fetch`.
