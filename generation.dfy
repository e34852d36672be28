/** The agentic text-generation loop (`generateText`): it asks the transport
    for assistant turns, grows the conversation with each turn and the tool
    messages its tool calls produce, and stops at the first turn with content
    or when the step budget is spent. It then reports the final text, the
    summed usage, all tool calls, the steps and the conversation. */
module Generation {
  import opened Wrappers
  import opened Json
  import opened Models
  import ToolService

  /** The transport (`llm.createAssistantMessage`): given the number of calls
      made before this one and the conversation sent, the assistant turn it
      returns, or the error it raises. The tools and options it also receives
      are the same on every call of one generation. */
  type Transport = (nat, seq<Message>) -> Result<AssistantResponse, Error>

  const EMPTY_MESSAGES: Error := "Messages array cannot be empty."

  /** `maxSteps` when the caller gives none. */
  const DEFAULT_MAX_STEPS: int := 1

  /** The record `generateText` resolves to. `toolCalls` is `None` where the
      key is omitted. */
  datatype TextResponse = TextResponse(
    text: AssistantContent,
    usage: Usage,
    finishReason: FinishReason,
    toolCalls: Option<seq<ToolCall>>,
    steps: seq<AssistantResponse>,
    conversation: seq<Message>)

  /** The tool messages a turn adds: the executor runs only when the turn
      requests at least one tool call. */
  function ToolTurn(m: AssistantTurn, tools: seq<Tool>, parseJson: ToolService.JsonParser): Result<seq<Message>, Error> {
    if HasToolCalls(m) then ToolService.ToolMessages(m, tools, parseJson) else Success([])
  }

  /** The state the loop ends in: the conversation, the responses, and the
      text and finish reason it captured (`null` and "stop" if none). */
  datatype LoopEnd = LoopEnd(
    conversation: seq<Message>,
    responses: seq<AssistantResponse>,
    text: AssistantContent,
    finishReason: FinishReason)

  /** The `while (step < maxSteps)` loop, from iteration `step` on. */
  function RunSteps(transport: Transport, tools: seq<Tool>, parseJson: ToolService.JsonParser, maxSteps: int,
                    step: nat, conversation: seq<Message>, responses: seq<AssistantResponse>): Result<LoopEnd, Error>
    decreases maxSteps - step
  {
    if step >= maxSteps then Success(LoopEnd(conversation, responses, NoContent, STOP))
    else
      match transport(step, conversation)
      case Failure(e) => Failure(e)
      case Success(response) =>
        match ToolTurn(response.message, tools, parseJson)
        case Failure(e) => Failure(e)
        case Success(toolMessages) =>
          var conversation' := conversation + [response.message] + toolMessages;
          if response.message.content != NoContent then
            Success(LoopEnd(conversation', responses + [response], response.message.content, response.finishReason))
          else
            RunSteps(transport, tools, parseJson, maxSteps, step + 1, conversation', responses + [response])
  }

  /** Element-wise sum of the usage of all responses. */
  function SumUsage(rs: seq<AssistantResponse>): Usage {
    if |rs| == 0 then ZERO_USAGE else AddUsage(SumUsage(rs[..|rs| - 1]), rs[|rs| - 1].usage)
  }

  /** The tool calls of all responses, in response order, then request order. */
  function AllToolCalls(rs: seq<AssistantResponse>): seq<ToolCall> {
    if |rs| == 0 then []
    else
      var m := rs[|rs| - 1].message;
      AllToolCalls(rs[..|rs| - 1]) + (if m.toolCalls.Some? then m.toolCalls.value else [])
  }

  /** What follows the loop: the fallback to the last step, the usage and
      tool-call aggregation, and the result record. */
  function Finish(end: LoopEnd): TextResponse {
    var rs := end.responses;
    var fallback := end.text == NoContent && |rs| > 0;
    var text := if fallback then rs[|rs| - 1].message.content else end.text;
    var finishReason := if fallback then rs[|rs| - 1].finishReason else end.finishReason;
    var toolCalls := AllToolCalls(rs);
    TextResponse(text, SumUsage(rs), finishReason, if |toolCalls| > 0 then Some(toolCalls) else None, rs, end.conversation)
  }

  /** What `generateText` resolves to, or the error it rejects with. */
  function Generate(transport: Transport, messages: seq<Message>, tools: seq<Tool>, maxSteps: int,
                    parseJson: ToolService.JsonParser): Result<TextResponse, Error>
  {
    if |messages| == 0 then Failure(EMPTY_MESSAGES)
    else
      match RunSteps(transport, tools, parseJson, maxSteps, 0, messages, [])
      case Failure(e) => Failure(e)
      case Success(end) => Success(Finish(end))
  }

  /** `generateText`. */
  method GenerateText(transport: Transport, messages: seq<Message>, tools: seq<Tool>, maxSteps: int,
                      parseJson: ToolService.JsonParser)
    returns (r: Result<TextResponse, Error>)
    ensures r == Generate(transport, messages, tools, maxSteps, parseJson)
  {
    if |messages| == 0 {
      return Failure(EMPTY_MESSAGES);
    }
    var conversation := messages;
    var assistantResponses: seq<AssistantResponse> := [];
    var step: nat := 0;
    var finalText := NoContent;
    var finalFinishReason := STOP;
    ghost var loop := RunSteps(transport, tools, parseJson, maxSteps, 0, messages, []);
    while step < maxSteps
      invariant step == |assistantResponses|
      invariant loop == RunSteps(transport, tools, parseJson, maxSteps, step, conversation, assistantResponses)
      invariant finalText == NoContent && finalFinishReason == STOP
      decreases maxSteps - step
    {
      ghost var conversation0, responses0 := conversation, assistantResponses;
      var assistantResponse := transport(step, conversation);
      if assistantResponse.Failure? {
        return Failure(assistantResponse.error);
      }
      var response := assistantResponse.value;
      assistantResponses := assistantResponses + [response];
      var assistantMessage := response.message;
      conversation := conversation + [assistantMessage];
      var toolMessages: seq<Message> := [];
      if HasToolCalls(assistantMessage) {
        var executed := ToolService.ExecuteToolCalls(assistantMessage, tools, parseJson);
        if executed.Failure? {
          return Failure(executed.error);
        }
        toolMessages := executed.value;
        conversation := conversation + toolMessages;
      }
      assert ToolTurn(assistantMessage, tools, parseJson) == Success(toolMessages);
      assert conversation == conversation0 + [assistantMessage] + toolMessages;
      if assistantMessage.content != NoContent {
        finalText := assistantMessage.content;
        finalFinishReason := response.finishReason;
        assert loop == Success(LoopEnd(conversation, assistantResponses, finalText, finalFinishReason));
        break;
      }
      step := step + 1;
    }
    assert loop == Success(LoopEnd(conversation, assistantResponses, finalText, finalFinishReason));

    if finalText == NoContent && |assistantResponses| > 0 {
      var lastResponse := assistantResponses[|assistantResponses| - 1];
      finalText := lastResponse.message.content;
      finalFinishReason := lastResponse.finishReason;
    }

    var usage := AggregateUsage(assistantResponses);
    var toolCalls := AggregateToolCalls(assistantResponses);

    return Success(TextResponse(finalText, usage, finalFinishReason,
                                if |toolCalls| > 0 then Some(toolCalls) else None,
                                assistantResponses, conversation));
  }

  /** The usage `reduce`: an accumulator that adds up every response's counters. */
  method AggregateUsage(rs: seq<AssistantResponse>) returns (usage: Usage)
    ensures usage == SumUsage(rs)
  {
    usage := ZERO_USAGE;
    for i := 0 to |rs|
      invariant usage == SumUsage(rs[..i])
    {
      assert rs[..i + 1][..i] == rs[..i];
      usage := AddUsage(usage, rs[i].usage);
    }
    assert rs[..|rs|] == rs;
  }

  /** The tool-call `reduce`: an accumulator that appends every response's tool calls. */
  method AggregateToolCalls(rs: seq<AssistantResponse>) returns (toolCalls: seq<ToolCall>)
    ensures toolCalls == AllToolCalls(rs)
  {
    toolCalls := [];
    for i := 0 to |rs|
      invariant toolCalls == AllToolCalls(rs[..i])
    {
      assert rs[..i + 1][..i] == rs[..i];
      var calls := rs[i].message.toolCalls;
      if calls.Some? {
        toolCalls := toolCalls + calls.value;
      } else {
        assert toolCalls + [] == toolCalls;
      }
    }
    assert rs[..|rs|] == rs;
  }

  // ----- Properties of the loop -----

  /** The tool messages a successful turn adds. */
  function TurnMessages(r: AssistantResponse, tools: seq<Tool>, parseJson: ToolService.JsonParser): seq<Message> {
    match ToolTurn(r.message, tools, parseJson)
    case Success(ms) => ms
    case Failure(_) => []
  }

  /** What the steps add to the caller's messages: for each step, its assistant
      message and then its tool messages. */
  function Delta(rs: seq<AssistantResponse>, tools: seq<Tool>, parseJson: ToolService.JsonParser): seq<Message> {
    if |rs| == 0 then []
    else Delta(rs[..|rs| - 1], tools, parseJson) + [rs[|rs| - 1].message] + TurnMessages(rs[|rs| - 1], tools, parseJson)
  }

  /** Each step `k` sent the caller's messages followed by what steps `0..k-1`
      added, received `rs[k]`, and ran its tools without error. */
  ghost predicate Replays(transport: Transport, messages: seq<Message>, tools: seq<Tool>,
                          parseJson: ToolService.JsonParser, rs: seq<AssistantResponse>) {
    forall k :: 0 <= k < |rs| ==>
      && transport(k, messages + Delta(rs[..k], tools, parseJson)) == Success(rs[k])
      && ToolTurn(rs[k].message, tools, parseJson).Success?
  }

  /** No response among the first `n` has content. */
  ghost predicate SilentUpTo(rs: seq<AssistantResponse>, n: int) {
    forall k :: 0 <= k < |rs| && k < n ==> rs[k].message.content == NoContent
  }

  /** Extending the responses by one successful step keeps `Replays` and extends `Delta`. */
  lemma ReplaysStep(transport: Transport, messages: seq<Message>, tools: seq<Tool>, parseJson: ToolService.JsonParser,
                    rs: seq<AssistantResponse>, r: AssistantResponse, toolMessages: seq<Message>)
    requires Replays(transport, messages, tools, parseJson, rs)
    requires transport(|rs|, messages + Delta(rs, tools, parseJson)) == Success(r)
    requires ToolTurn(r.message, tools, parseJson) == Success(toolMessages)
    ensures Delta(rs + [r], tools, parseJson) == Delta(rs, tools, parseJson) + [r.message] + toolMessages
    ensures Replays(transport, messages, tools, parseJson, rs + [r])
  {
    var rs' := rs + [r];
    assert rs'[..|rs'| - 1] == rs;
    forall k | 0 <= k < |rs'|
      ensures transport(k, messages + Delta(rs'[..k], tools, parseJson)) == Success(rs'[k])
    {
      if k < |rs| {
        assert rs'[..k] == rs[..k];
      } else {
        assert rs'[..k] == rs;
      }
    }
  }

  /** What a loop end reached from the caller's messages satisfies: the
      conversation is the messages followed by what the steps added, each
      step was obtained by sending the conversation built before it, only the
      last response may have content, and the captured text and finish reason
      are that content and its finish reason, or `null` and "stop" once the
      budget ran out with no content at all. */
  ghost predicate Produced(transport: Transport, messages: seq<Message>, tools: seq<Tool>,
                           parseJson: ToolService.JsonParser, maxSteps: int, end: LoopEnd) {
    var rs := end.responses;
    && end.conversation == messages + Delta(rs, tools, parseJson)
    && Replays(transport, messages, tools, parseJson, rs)
    && SilentUpTo(rs, |rs| - 1)
    && (end.text == NoContent ==> |rs| >= maxSteps && end.finishReason == STOP && SilentUpTo(rs, |rs|))
    && (end.text != NoContent ==>
          |rs| > 0 && end.text == rs[|rs| - 1].message.content && end.finishReason == rs[|rs| - 1].finishReason)
  }

  /** One successful step keeps the loop's invariant. */
  lemma StepKeepsInvariant(transport: Transport, tools: seq<Tool>, parseJson: ToolService.JsonParser,
                           messages: seq<Message>, conversation: seq<Message>, responses: seq<AssistantResponse>,
                           r: AssistantResponse, toolMessages: seq<Message>)
    requires conversation == messages + Delta(responses, tools, parseJson)
    requires Replays(transport, messages, tools, parseJson, responses)
    requires SilentUpTo(responses, |responses|)
    requires transport(|responses|, conversation) == Success(r)
    requires ToolTurn(r.message, tools, parseJson) == Success(toolMessages)
    ensures conversation + [r.message] + toolMessages == messages + Delta(responses + [r], tools, parseJson)
    ensures Replays(transport, messages, tools, parseJson, responses + [r])
    ensures SilentUpTo(responses + [r], |responses + [r]| - 1)
    ensures r.message.content == NoContent ==> SilentUpTo(responses + [r], |responses + [r]|)
  {
    ReplaysStep(transport, messages, tools, parseJson, responses, r, toolMessages);
  }

  /** The loop, run from a state that earlier steps produced, keeps those
      steps, takes at most `maxSteps` steps in all, and ends in a state that
      satisfies `Produced`. */
  lemma {:induction false} RunStepsInvariant(transport: Transport, tools: seq<Tool>, parseJson: ToolService.JsonParser,
                                             maxSteps: int, messages: seq<Message>, step: nat,
                                             conversation: seq<Message>, responses: seq<AssistantResponse>)
    requires step == |responses|
    requires conversation == messages + Delta(responses, tools, parseJson)
    requires Replays(transport, messages, tools, parseJson, responses)
    requires SilentUpTo(responses, |responses|)
    requires RunSteps(transport, tools, parseJson, maxSteps, step, conversation, responses).Success?
    ensures var end := RunSteps(transport, tools, parseJson, maxSteps, step, conversation, responses).value;
            && |responses| <= |end.responses| <= (if maxSteps > step then maxSteps else step)
            && end.responses[..|responses|] == responses
            && Produced(transport, messages, tools, parseJson, maxSteps, end)
    decreases maxSteps - step
  {
    if step >= maxSteps {
      var end := RunSteps(transport, tools, parseJson, maxSteps, step, conversation, responses).value;
      assert end == LoopEnd(conversation, responses, NoContent, STOP);
      assert end.responses[..|responses|] == responses;
    } else {
      var r := transport(step, conversation).value;
      var toolMessages := ToolTurn(r.message, tools, parseJson).value;
      StepKeepsInvariant(transport, tools, parseJson, messages, conversation, responses, r, toolMessages);
      if r.message.content != NoContent {
        StoppingStep(transport, tools, parseJson, maxSteps, messages, step, conversation, responses);
      } else {
        var conversation' := conversation + [r.message] + toolMessages;
        var responses' := responses + [r];
        RunStepsInvariant(transport, tools, parseJson, maxSteps, messages, step + 1, conversation', responses');
        ContinuingStep(transport, tools, parseJson, maxSteps, messages, step, conversation, responses);
      }
    }
  }

  /** A step with content ends the loop right after its tool messages. */
  lemma StoppingStep(transport: Transport, tools: seq<Tool>, parseJson: ToolService.JsonParser,
                     maxSteps: int, messages: seq<Message>, step: nat,
                     conversation: seq<Message>, responses: seq<AssistantResponse>)
    requires step == |responses| && step < maxSteps
    requires transport(step, conversation).Success?
    requires var r := transport(step, conversation).value;
             && r.message.content != NoContent
             && ToolTurn(r.message, tools, parseJson).Success?
             && var responses' := responses + [r];
                && conversation + [r.message] + ToolTurn(r.message, tools, parseJson).value
                   == messages + Delta(responses', tools, parseJson)
                && Replays(transport, messages, tools, parseJson, responses')
                && SilentUpTo(responses', |responses'| - 1)
    ensures var end := RunSteps(transport, tools, parseJson, maxSteps, step, conversation, responses).value;
            && RunSteps(transport, tools, parseJson, maxSteps, step, conversation, responses).Success?
            && |end.responses| == |responses| + 1
            && end.responses[..|responses|] == responses
            && Produced(transport, messages, tools, parseJson, maxSteps, end)
  {
    var r := transport(step, conversation).value;
    var end := RunSteps(transport, tools, parseJson, maxSteps, step, conversation, responses).value;
    assert end.responses == responses + [r];
    assert end.responses[..|responses|] == responses;
  }

  /** A step without content hands the loop on to the next step, so the end
      state is the next step's. */
  lemma ContinuingStep(transport: Transport, tools: seq<Tool>, parseJson: ToolService.JsonParser,
                       maxSteps: int, messages: seq<Message>, step: nat,
                       conversation: seq<Message>, responses: seq<AssistantResponse>)
    requires step == |responses| && step < maxSteps
    requires transport(step, conversation).Success?
    requires var r := transport(step, conversation).value;
             && r.message.content == NoContent
             && ToolTurn(r.message, tools, parseJson).Success?
             && var responses' := responses + [r];
                var conversation' := conversation + [r.message] + ToolTurn(r.message, tools, parseJson).value;
                var next := RunSteps(transport, tools, parseJson, maxSteps, step + 1, conversation', responses');
                && next.Success?
                && |responses'| <= |next.value.responses| <= maxSteps
                && next.value.responses[..|responses'|] == responses'
                && Produced(transport, messages, tools, parseJson, maxSteps, next.value)
    ensures var end := RunSteps(transport, tools, parseJson, maxSteps, step, conversation, responses);
            && end.Success?
            && |responses| <= |end.value.responses| <= maxSteps
            && end.value.responses[..|responses|] == responses
            && Produced(transport, messages, tools, parseJson, maxSteps, end.value)
  {
    var r := transport(step, conversation).value;
    var end := RunSteps(transport, tools, parseJson, maxSteps, step, conversation, responses).value;
    assert end.responses[..|responses| + 1][..|responses|] == end.responses[..|responses|];
    assert (responses + [r])[..|responses|] == responses;
  }

  /** The end state of the loop of a successful generation satisfies `Produced`
      and holds at most `maxSteps` responses. */
  lemma GenerateEnd(transport: Transport, messages: seq<Message>, tools: seq<Tool>, maxSteps: int,
                    parseJson: ToolService.JsonParser)
    requires |messages| > 0
    requires RunSteps(transport, tools, parseJson, maxSteps, 0, messages, []).Success?
    ensures var end := RunSteps(transport, tools, parseJson, maxSteps, 0, messages, []).value;
            && |end.responses| <= (if maxSteps > 0 then maxSteps else 0)
            && Produced(transport, messages, tools, parseJson, maxSteps, end)
  {
    assert messages + Delta([], tools, parseJson) == messages;
    RunStepsInvariant(transport, tools, parseJson, maxSteps, messages, 0, messages, []);
  }

  /** An empty message list is rejected with the same error whatever the
      transport would answer, so no transport call takes place. */
  lemma EmptyMessagesRejected(transport: Transport, tools: seq<Tool>, maxSteps: int, parseJson: ToolService.JsonParser)
    ensures Generate(transport, [], tools, maxSteps, parseJson) == Failure(EMPTY_MESSAGES)
  {
  }

  /** With no step budget there is no transport call: no text, finish reason
      "stop", zero usage, no tool calls, and the conversation is the input. */
  lemma NoBudgetNoCalls(transport: Transport, messages: seq<Message>, tools: seq<Tool>, maxSteps: int,
                        parseJson: ToolService.JsonParser)
    requires |messages| > 0 && maxSteps <= 0
    ensures Generate(transport, messages, tools, maxSteps, parseJson)
            == Success(TextResponse(NoContent, ZERO_USAGE, STOP, None, [], messages))
  {
  }

  /** There are at most `maxSteps` transport calls, one step per call; with a
      positive budget there is at least one. */
  lemma StepBound(transport: Transport, messages: seq<Message>, tools: seq<Tool>, maxSteps: int,
                  parseJson: ToolService.JsonParser)
    requires Generate(transport, messages, tools, maxSteps, parseJson).Success?
    ensures var res := Generate(transport, messages, tools, maxSteps, parseJson).value;
            && |res.steps| <= (if maxSteps > 0 then maxSteps else 0)
            && (maxSteps > 0 ==> |res.steps| > 0)
  {
    GenerateEnd(transport, messages, tools, maxSteps, parseJson);
  }

  /** The loop stops at the first step with content: every earlier step had
      none, and it ends before the budget only because the last step had
      content. The result's text and finish reason are the last step's (the
      stopping step's, or the fallback), or `null` and "stop" with no step. */
  lemma StopsAtFirstText(transport: Transport, messages: seq<Message>, tools: seq<Tool>, maxSteps: int,
                         parseJson: ToolService.JsonParser)
    requires Generate(transport, messages, tools, maxSteps, parseJson).Success?
    ensures var res := Generate(transport, messages, tools, maxSteps, parseJson).value;
            var n := |res.steps|;
            && (forall k :: 0 <= k < n - 1 ==> res.steps[k].message.content == NoContent)
            && (n < maxSteps ==> n > 0 && res.steps[n - 1].message.content != NoContent)
            && (n == 0 ==> res.text == NoContent && res.finishReason == STOP)
            && (n > 0 ==> res.text == res.steps[n - 1].message.content && res.finishReason == res.steps[n - 1].finishReason)
  {
    GenerateEnd(transport, messages, tools, maxSteps, parseJson);
  }

  /** When no step produced content, the text and finish reason fall back to
      the last step's: the text is `null` and the finish reason is the one the
      last step reported. */
  lemma FallbackToLastStep(transport: Transport, messages: seq<Message>, tools: seq<Tool>, maxSteps: int,
                           parseJson: ToolService.JsonParser)
    requires Generate(transport, messages, tools, maxSteps, parseJson).Success?
    requires var res := Generate(transport, messages, tools, maxSteps, parseJson).value;
             forall k :: 0 <= k < |res.steps| ==> res.steps[k].message.content == NoContent
    ensures var res := Generate(transport, messages, tools, maxSteps, parseJson).value;
            && |res.steps| == (if maxSteps > 0 then maxSteps else 0)
            && res.text == NoContent
            && res.finishReason == (if |res.steps| > 0 then res.steps[|res.steps| - 1].finishReason else STOP)
  {
    GenerateEnd(transport, messages, tools, maxSteps, parseJson);
  }

  /** The conversation is the caller's messages followed, step by step, by the
      assistant message and that step's tool messages (also on the step that
      stops); step `k` was sent exactly the conversation built before it. */
  lemma ConversationGrowth(transport: Transport, messages: seq<Message>, tools: seq<Tool>, maxSteps: int,
                           parseJson: ToolService.JsonParser)
    requires Generate(transport, messages, tools, maxSteps, parseJson).Success?
    ensures var res := Generate(transport, messages, tools, maxSteps, parseJson).value;
            && res.conversation == messages + Delta(res.steps, tools, parseJson)
            && Replays(transport, messages, tools, parseJson, res.steps)
  {
    GenerateEnd(transport, messages, tools, maxSteps, parseJson);
  }

  /** A turn runs the executor only when it requests tool calls, and adds its
      tool messages right after itself. */
  lemma {:induction false} TurnAddsToolMessages(rs: seq<AssistantResponse>, r: AssistantResponse, tools: seq<Tool>,
                                                parseJson: ToolService.JsonParser)
    ensures !HasToolCalls(r.message) ==> Delta(rs + [r], tools, parseJson) == Delta(rs, tools, parseJson) + [r.message]
    ensures HasToolCalls(r.message) && ToolService.ToolMessages(r.message, tools, parseJson).Success? ==>
              Delta(rs + [r], tools, parseJson)
              == Delta(rs, tools, parseJson) + [r.message] + ToolService.ToolMessages(r.message, tools, parseJson).value
  {
    assert (rs + [r])[..|rs|] == rs;
    assert Delta(rs, tools, parseJson) + [r.message] + [] == Delta(rs, tools, parseJson) + [r.message];
  }

  /** Usage sums split over any concatenation of steps. */
  lemma UsageZeroRight(x: Usage)
    ensures AddUsage(x, ZERO_USAGE) == x
  {
  }

  lemma UsageAssociative(x: Usage, y: Usage, z: Usage)
    ensures AddUsage(AddUsage(x, y), z) == AddUsage(x, AddUsage(y, z))
  {
  }

  lemma {:induction false} SumUsageAppend(a: seq<AssistantResponse>, b: seq<AssistantResponse>)
    ensures SumUsage(a + b) == AddUsage(SumUsage(a), SumUsage(b))
    decreases |b|
  {
    if |b| == 0 {
      assert a + b == a;
      var u := SumUsage(a);
      assert SumUsage(b) == ZERO_USAGE;
      UsageZeroRight(u);
    } else {
      var init := b[..|b| - 1];
      var last := b[|b| - 1];
      assert (a + b)[..|a + b| - 1] == a + init;
      assert (a + b)[|a + b| - 1] == last;
      assert SumUsage(a + b) == AddUsage(SumUsage(a + init), last.usage);
      SumUsageAppend(a, init);
      assert SumUsage(b) == AddUsage(SumUsage(init), last.usage);
      UsageAssociative(SumUsage(a), SumUsage(init), last.usage);
    }
  }

  /** The tool calls of a list of steps are empty exactly when no step
      requested one. */
  lemma {:induction false} NoToolCallsIffNoneRequested(rs: seq<AssistantResponse>)
    ensures AllToolCalls(rs) == [] <==> forall k :: 0 <= k < |rs| ==> !HasToolCalls(rs[k].message)
  {
    if |rs| > 0 {
      var n := |rs| - 1;
      NoToolCallsIffNoneRequested(rs[..n]);
      assert forall k :: 0 <= k < n ==> rs[..n][k] == rs[k];
    }
  }

  /** Tool calls concatenate over any concatenation of steps. */
  lemma {:induction false} AllToolCallsAppend(a: seq<AssistantResponse>, b: seq<AssistantResponse>)
    ensures AllToolCalls(a + b) == AllToolCalls(a) + AllToolCalls(b)
    decreases |b|
  {
    if |b| == 0 {
      assert a + b == a;
    } else {
      assert (a + b)[..|a + b| - 1] == a + b[..|b| - 1];
      AllToolCallsAppend(a, b[..|b| - 1]);
    }
  }

  /** `toolCalls` concatenates every step's requests and is omitted exactly
      when no step requested a tool. */
  lemma ToolCallsAggregated(transport: Transport, messages: seq<Message>, tools: seq<Tool>, maxSteps: int,
                            parseJson: ToolService.JsonParser)
    requires Generate(transport, messages, tools, maxSteps, parseJson).Success?
    ensures var res := Generate(transport, messages, tools, maxSteps, parseJson).value;
            && (res.toolCalls.None? <==> forall k :: 0 <= k < |res.steps| ==> !HasToolCalls(res.steps[k].message))
            && (res.toolCalls.Some? ==> res.toolCalls.value == AllToolCalls(res.steps))
  {
    var res := Generate(transport, messages, tools, maxSteps, parseJson).value;
    NoToolCallsIffNoneRequested(res.steps);
  }

  /** The loop failed with `e` after the steps `rs`: each of them was silent
      and kept the invariant, and the next call to the transport, on the
      conversation built so far, failed with `e` or returned a turn whose tool
      calls failed with `e`. */
  ghost predicate FailedAfter(transport: Transport, messages: seq<Message>, tools: seq<Tool>,
                              parseJson: ToolService.JsonParser, maxSteps: int, rs: seq<AssistantResponse>, e: Error) {
    && |rs| < maxSteps
    && Replays(transport, messages, tools, parseJson, rs)
    && SilentUpTo(rs, |rs|)
    && match transport(|rs|, messages + Delta(rs, tools, parseJson))
       case Failure(e') => e' == e
       case Success(r) => ToolTurn(r.message, tools, parseJson) == Failure(e)
  }

  lemma {:induction false} RunStepsFailure(transport: Transport, tools: seq<Tool>, parseJson: ToolService.JsonParser,
                                           maxSteps: int, messages: seq<Message>, step: nat,
                                           conversation: seq<Message>, responses: seq<AssistantResponse>)
    requires step == |responses|
    requires conversation == messages + Delta(responses, tools, parseJson)
    requires Replays(transport, messages, tools, parseJson, responses)
    requires SilentUpTo(responses, |responses|)
    requires RunSteps(transport, tools, parseJson, maxSteps, step, conversation, responses).Failure?
    ensures exists rs :: FailedAfter(transport, messages, tools, parseJson, maxSteps, rs,
                                     RunSteps(transport, tools, parseJson, maxSteps, step, conversation, responses).error)
    decreases maxSteps - step
  {
    var e := RunSteps(transport, tools, parseJson, maxSteps, step, conversation, responses).error;
    match transport(step, conversation)
    case Failure(_) =>
      assert FailedAfter(transport, messages, tools, parseJson, maxSteps, responses, e);
    case Success(r) =>
      match ToolTurn(r.message, tools, parseJson)
      case Failure(_) =>
        assert FailedAfter(transport, messages, tools, parseJson, maxSteps, responses, e);
      case Success(toolMessages) =>
        StepKeepsInvariant(transport, tools, parseJson, messages, conversation, responses, r, toolMessages);
        RunStepsFailure(transport, tools, parseJson, maxSteps, messages, step + 1,
                        conversation + [r.message] + toolMessages, responses + [r]);
  }

  /** A failing transport call or tool execution rejects the whole generation
      with that error: no later step runs and nothing is returned. */
  lemma FirstFailureAborts(transport: Transport, messages: seq<Message>, tools: seq<Tool>, maxSteps: int,
                           parseJson: ToolService.JsonParser)
    requires |messages| > 0
    requires Generate(transport, messages, tools, maxSteps, parseJson).Failure?
    ensures exists rs :: FailedAfter(transport, messages, tools, parseJson, maxSteps, rs,
                                     Generate(transport, messages, tools, maxSteps, parseJson).error)
  {
    assert messages + Delta([], tools, parseJson) == messages;
    RunStepsFailure(transport, tools, parseJson, maxSteps, messages, 0, messages, []);
  }

  /** Conversely, a transport that fails on the first call makes the generation fail with its error. */
  lemma FirstCallFailure(transport: Transport, messages: seq<Message>, tools: seq<Tool>, maxSteps: int,
                         parseJson: ToolService.JsonParser, e: Error)
    requires |messages| > 0 && maxSteps > 0
    requires transport(0, messages) == Failure(e)
    ensures Generate(transport, messages, tools, maxSteps, parseJson) == Failure(e)
  {
  }

  // ----- Worked examples -----

  const WEATHER_QUESTION: Message := UserMessage(UserText("What is the current weather in San Francisco?"))
  const WEATHER_CALL: ToolCall := ToolCall("1", "get_current_weather", "{\"location\":\"San Francisco, CA\"}")
  const WEATHER_ANSWER := "The current weather in San Francisco is 42 degrees Fahrenheit."

  /** A weather tool that always answers "42". */
  function WeatherTool(): Tool {
    Tool("get_current_weather", "Get the current weather in a given location", JObj(map[]), Some(true),
         (_: Json) => Success("42"))
  }

  const WEATHER_FIRST := AssistantResponse(AssistantMessage(NoContent, Some([WEATHER_CALL])), Usage(80, 22, 102), "tool-calls")
  const WEATHER_SECOND := AssistantResponse(AssistantMessage(AssistantText(WEATHER_ANSWER), None), Usage(15, 38, 53), STOP)

  /** A model that first requests the weather tool, then answers. */
  function WeatherModel(k: nat, conversation: seq<Message>): Result<AssistantResponse, Error> {
    if k == 0 then Success(WEATHER_FIRST) else if k == 1 then Success(WEATHER_SECOND) else Failure("no more responses")
  }

  /** A JSON parser that accepts every argument string. */
  function AcceptAll(text: string): Option<Json> {
    Some(JObj(map[]))
  }

  /** Two steps: the first requests the weather tool without text, the
      second answers; with a budget of four steps the result holds the
      second step's text and finish reason, the summed usage 95/60/155, both
      steps, the requested tool call, and a conversation of the question, the
      first turn, the tool's answer and the final turn. */
  lemma WeatherTwoSteps()
    ensures Generate(WeatherModel, [WEATHER_QUESTION], [WeatherTool()], 4, AcceptAll)
            == Success(TextResponse(AssistantText(WEATHER_ANSWER), Usage(95, 60, 155), STOP, Some([WEATHER_CALL]),
                                    [WEATHER_FIRST, WEATHER_SECOND],
                                    [WEATHER_QUESTION, WEATHER_FIRST.message, ToolMessage("42", "1"), WEATHER_SECOND.message]))
  {
    var tools := [WeatherTool()];
    var answer := [ToolMessage("42", "1")];
    assert ToolService.FindTool(tools, WEATHER_CALL.name) == Some(0);
    assert ToolService.RunCall(WEATHER_CALL, tools, AcceptAll) == Success(answer);
    assert [WEATHER_CALL][..0] == [];
    assert ToolService.RunCalls([], tools, AcceptAll) == Success([]);
    assert [] + answer == answer;
    assert ToolService.RunCalls([WEATHER_CALL], tools, AcceptAll) == Success(answer);
    assert ToolTurn(WEATHER_FIRST.message, tools, AcceptAll) == Success(answer);
    assert ToolTurn(WEATHER_SECOND.message, tools, AcceptAll) == Success([]);
    var conversation := [WEATHER_QUESTION] + [WEATHER_FIRST.message] + answer;
    var final := conversation + [WEATHER_SECOND.message] + [];
    assert final == [WEATHER_QUESTION, WEATHER_FIRST.message, ToolMessage("42", "1"), WEATHER_SECOND.message];
    assert RunSteps(WeatherModel, tools, AcceptAll, 4, 1, conversation, [WEATHER_FIRST])
           == Success(LoopEnd(final, [WEATHER_FIRST] + [WEATHER_SECOND], AssistantText(WEATHER_ANSWER), STOP));
    assert [] + [WEATHER_FIRST] == [WEATHER_FIRST];
    assert WEATHER_FIRST.message.content == NoContent;
    assert RunSteps(WeatherModel, tools, AcceptAll, 4, 0, [WEATHER_QUESTION], [])
           == Success(LoopEnd(final, [WEATHER_FIRST] + [WEATHER_SECOND], AssistantText(WEATHER_ANSWER), STOP));
    var rs := [WEATHER_FIRST, WEATHER_SECOND];
    assert rs[..1] == [WEATHER_FIRST] && [WEATHER_FIRST][..0] == [];
    UsageZeroLeft(WEATHER_FIRST.usage);
    assert SumUsage([WEATHER_FIRST]) == Usage(80, 22, 102);
    assert SumUsage(rs) == Usage(95, 60, 155);
    assert AllToolCalls([WEATHER_FIRST]) == [WEATHER_CALL];
    assert AllToolCalls(rs) == [WEATHER_CALL] + [];
    assert [WEATHER_FIRST] + [WEATHER_SECOND] == rs;
    assert AllToolCalls(rs) == [WEATHER_CALL];
    assert rs[|rs| - 1] == WEATHER_SECOND;
    assert Finish(LoopEnd(final, rs, AssistantText(WEATHER_ANSWER), STOP))
           == TextResponse(AssistantText(WEATHER_ANSWER), Usage(95, 60, 155), STOP, Some([WEATHER_CALL]), rs, final);
  }

  const WEATHER_ONLY_CALL := AssistantResponse(AssistantMessage(NoContent, Some([WEATHER_CALL])), Usage(15, 38, 53), "tool-calls")

  /** A model whose only turn requests the weather tool. */
  function ToolCallModel(k: nat, conversation: seq<Message>): Result<AssistantResponse, Error> {
    if k == 0 then Success(WEATHER_ONLY_CALL) else Failure("no more responses")
  }

  /** With the default budget of one step, a turn that only requests a tool
      ends the generation: no text, that turn's finish reason and usage, the
      requested call, and a conversation of the question, the turn and the
      tool's answer. */
  lemma ToolCallWithDefaultBudget()
    ensures Generate(ToolCallModel, [WEATHER_QUESTION], [WeatherTool()], DEFAULT_MAX_STEPS, AcceptAll)
            == Success(TextResponse(NoContent, Usage(15, 38, 53), "tool-calls", Some([WEATHER_CALL]),
                                    [WEATHER_ONLY_CALL],
                                    [WEATHER_QUESTION, WEATHER_ONLY_CALL.message, ToolMessage("42", "1")]))
  {
    var tools := [WeatherTool()];
    var answer := [ToolMessage("42", "1")];
    assert ToolService.FindTool(tools, WEATHER_CALL.name) == Some(0);
    assert ToolService.RunCall(WEATHER_CALL, tools, AcceptAll) == Success(answer);
    assert [WEATHER_CALL][..0] == [];
    assert ToolService.RunCalls([], tools, AcceptAll) == Success([]);
    assert [] + answer == answer;
    assert ToolService.RunCalls([WEATHER_CALL], tools, AcceptAll) == Success(answer);
    assert ToolTurn(WEATHER_ONLY_CALL.message, tools, AcceptAll) == Success(answer);
    var final := [WEATHER_QUESTION] + [WEATHER_ONLY_CALL.message] + answer;
    assert final == [WEATHER_QUESTION, WEATHER_ONLY_CALL.message, ToolMessage("42", "1")];
    assert [] + [WEATHER_ONLY_CALL] == [WEATHER_ONLY_CALL];
    assert RunSteps(ToolCallModel, tools, AcceptAll, DEFAULT_MAX_STEPS, 0, [WEATHER_QUESTION], [])
           == Success(LoopEnd(final, [WEATHER_ONLY_CALL], NoContent, STOP));
    var rs := [WEATHER_ONLY_CALL];
    assert rs[..0] == [];
    UsageZeroLeft(WEATHER_ONLY_CALL.usage);
    assert SumUsage(rs) == Usage(15, 38, 53);
    assert AllToolCalls(rs) == [] + [WEATHER_CALL];
    assert [] + [WEATHER_CALL] == [WEATHER_CALL];
    assert rs[|rs| - 1] == WEATHER_ONLY_CALL;
    assert Finish(LoopEnd(final, rs, NoContent, STOP))
           == TextResponse(NoContent, Usage(15, 38, 53), "tool-calls", Some([WEATHER_CALL]), rs, final);
  }

  /** A model that answers with text on its first call. */
  function TextModel(k: nat, conversation: seq<Message>): Result<AssistantResponse, Error> {
    if k == 0 then Success(AssistantResponse(AssistantMessage(AssistantText(DRAGON_STORY), None), Usage(15, 38, 53), STOP))
    else Failure("no more responses")
  }

  const DRAGON_STORY := "A dragon guarded an ancient treasure."

  /** A parser that accepts nothing. */
  function RejectAll(text: string): Option<Json> {
    None
  }

  /** A first step with text ends the loop at once, whatever the budget
      (here four steps): one step, its text, usage and finish reason. */
  lemma TextOnFirstStep()
    ensures Generate(TextModel, [WEATHER_QUESTION], [], 4, RejectAll)
            == Success(TextResponse(AssistantText(DRAGON_STORY), Usage(15, 38, 53), STOP, None,
                                    [TextModel(0, []).value],
                                    [WEATHER_QUESTION, TextModel(0, []).value.message]))
  {
    var only := TextModel(0, []).value;
    assert ToolTurn(only.message, [], RejectAll) == Success([]);
    assert [WEATHER_QUESTION] + [only.message] + [] == [WEATHER_QUESTION, only.message];
    assert [only][..0] == [];
    UsageZeroLeft(only.usage);
    assert AllToolCalls([only]) == [];
  }

  lemma UsageZeroLeft(x: Usage)
    ensures AddUsage(ZERO_USAGE, x) == x
  {
  }
}
