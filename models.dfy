/** The SDK's records: messages in the four roles, tool-call requests, tools,
    token usage, the transport's normalised assistant turn and the generation
    options. The message type is the union of the SDK's two message-model
    generations; the older one also lets an assistant message carry an array
    of text segments. */
module Models {
  import opened Wrappers
  import opened Json

  /** The message of a thrown error. */
  type Error = string

  /** An image part's payload: a string (a URL or data URL), or a binary
      object. */
  datatype ImageSource = ImageString(url: string) | ImageBinary(bytes: seq<bv8>)

  datatype UserPart =
    | TextPart(text: string)
    | ImagePart(image: ImageSource, mimeType: Option<string>)

  datatype UserContent = UserText(text: string) | UserParts(parts: seq<UserPart>)

  /** An assistant message's content: `null`, a string, or (older message
      models only) an array of text segments, kept here as their texts. */
  datatype AssistantContent =
    | NoContent
    | AssistantText(text: string)
    | AssistantSegments(segments: seq<string>)

  /** A tool-call request as it appears inside an assistant message. */
  datatype ToolCall = ToolCall(toolCallId: string, name: string, arguments: string)

  datatype Message =
    | SystemMessage(systemText: string)
    | UserMessage(userContent: UserContent)
    | AssistantMessage(content: AssistantContent, toolCalls: Option<seq<ToolCall>>)
    | ToolMessage(toolContent: string, toolCallId: string)

  /** The messages a transport returns and a tool executor reads. */
  type AssistantTurn = m: Message | m.AssistantMessage? witness AssistantMessage(NoContent, None)

  /** The `role` discriminator of a message. */
  function RoleName(m: Message): (r: string)
    ensures r in {"system", "user", "assistant", "tool"}
  {
    match m
    case SystemMessage(_) => "system"
    case UserMessage(_) => "user"
    case AssistantMessage(_, _) => "assistant"
    case ToolMessage(_, _) => "tool"
  }

  /** `message.toolCalls?.length` is truthy: the turn asks for at least one tool. */
  predicate HasToolCalls(m: AssistantTurn) {
    m.toolCalls.Some? && |m.toolCalls.value| > 0
  }

  /** Token counters of one transport call, or of several summed up. */
  datatype Usage = Usage(promptTokens: nat, completionTokens: nat, totalTokens: nat)

  const ZERO_USAGE: Usage := Usage(0, 0, 0)

  /** Element-wise sum of two counters. */
  function AddUsage(a: Usage, b: Usage): Usage {
    Usage(a.promptTokens + b.promptTokens,
          a.completionTokens + b.completionTokens,
          a.totalTokens + b.totalTokens)
  }

  /** The finish reason reported for a turn. The adapters copy the provider's
      string through a type cast, so any string can occur. */
  type FinishReason = string

  const STOP: FinishReason := "stop"

  /** One transport round trip, normalised: the assistant turn, its usage and
      its finish reason. */
  datatype AssistantResponse = AssistantResponse(message: AssistantTurn, usage: Usage, finishReason: FinishReason)

  /** A caller-supplied function tool. `execute` maps parsed arguments to the
      tool's result string, or raises an error. */
  datatype Tool = Tool(
    name: string,
    description: string,
    parameters: Json,
    strict: Option<bool>,
    execute: Json -> Result<string, Error>)

  /** Generation options, passed through to the provider. */
  datatype Options = Options(
    maxTokens: Option<Number>,
    temperature: Option<Number>,
    topP: Option<Number>,
    frequencyPenalty: Option<Number>,
    presencePenalty: Option<Number>,
    stopSequences: Option<seq<string>>,
    seed: Option<Number>)

  /** A numeric option that is present and truthy. */
  predicate Given(n: Option<Number>) {
    n.Some? && Truthy(n.value)
  }
}
