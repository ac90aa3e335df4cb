/** Data shared by the agent runtime, the message transform, the proxy reducer and the
    retry wrapper.  Timestamps and the constant `role`/`content_type` tags are not modelled. */
module Types {

  datatype Option<+T> = None | Some(value: T)

  /** A JSON value, kept as its text: no part of the model looks inside one. */
  type Json = string

  const EMPTY_OBJECT: Json := "{}"

  datatype StopReason = Stop | Length | ToolUse | Error | Aborted

  datatype TextContent = TextContent(text: string, signature: Option<string>)

  /** Content of a user message or of a tool result. */
  datatype ContentBlock = Text(text: TextContent) | Image(data: string, mimeType: string)

  datatype ToolCall = ToolCall(id: string, name: string, arguments: Json, thoughtSignature: Option<string>)

  datatype AssistantBlock =
    | TextBlock(text: TextContent)
    | ThinkingBlock(thinking: string, signature: Option<string>, redacted: Option<bool>)
    | CallBlock(call: ToolCall)

  datatype Diagnostic =
    | Retry(attempt: nat, maxRetries: nat, reason: string, delayMs: nat)
    | OtherDiagnostic(message: string)

  datatype AssistantMessage = AssistantMessage(
    content: seq<AssistantBlock>,
    api: string,
    provider: string,
    model: string,
    usage: int,
    stopReason: StopReason,
    errorMessage: Option<string>,
    responseId: Option<string>,
    diagnostics: Option<seq<Diagnostic>>)
  {
    /** The stop reasons after which the loop never runs tools and replay drops the message. */
    predicate Failed() {
      stopReason == Error || stopReason == Aborted
    }

    /** The tool calls of the message, in source order. */
    function Calls(): seq<ToolCall> {
      CallsOf(content)
    }
  }

  function CallsOf(content: seq<AssistantBlock>): seq<ToolCall> {
    if content == [] then []
    else if content[0].CallBlock? then [content[0].call] + CallsOf(content[1..])
    else CallsOf(content[1..])
  }

  datatype UserContent = Plain(text: string) | Blocks(blocks: seq<ContentBlock>)

  datatype ToolResultMessage = ToolResultMessage(
    callId: string,
    toolName: string,
    content: seq<ContentBlock>,
    details: Option<Json>,
    isError: bool)

  datatype Message =
    | User(content: UserContent)
    | Assistant(assistant: AssistantMessage)
    | Result(result: ToolResultMessage)

  /** What a streaming delta event says, besides the partial message it carries. */
  datatype Delta =
    | TextStart(index: nat)
    | TextDelta(index: nat, delta: string)
    | TextEnd(index: nat, text: string)
    | ThinkingStart(index: nat)
    | ThinkingDelta(index: nat, delta: string)
    | ThinkingEnd(index: nat, text: string)
    | CallStart(index: nat)
    | CallDelta(index: nat, delta: string)
    | CallEnd(index: nat, call: ToolCall)

  /** One event of a provider stream. */
  datatype StreamEvent =
    | Start(partial: AssistantMessage)
    | Update(what: Delta, partial: AssistantMessage)
    | Done(reason: StopReason, message: AssistantMessage)
    | Failure(reason: StopReason, message: AssistantMessage)
  {
    predicate Terminal() {
      Done? || Failure?
    }
  }

  datatype Model = Model(id: string, provider: string, api: string, imageInput: bool)

  // ----- Sequences, for any type of element -----

  lemma Associate<T>(a: seq<T>, b: seq<T>, c: seq<T>)
    ensures a + b + c == a + (b + c)
  {
  }

  lemma AppendEmpty<T>(a: seq<T>)
    ensures a + [] == a
  {
  }

  lemma EmptyThen<T>(a: seq<T>)
    ensures [] + a == a
  {
  }

  lemma TakeNext<T>(s: seq<T>, i: nat)
    requires i < |s|
    ensures s[..i + 1] == s[..i] + [s[i]] && s[..i + 1][..i] == s[..i]
  {
  }

  lemma DropTwice<T>(s: seq<T>, m: nat, n: nat)
    requires m + n <= |s|
    ensures s[m..][n..] == s[m + n..]
  {
  }

  lemma TakeAll<T>(s: seq<T>)
    ensures s[..|s|] == s
  {
  }

  lemma TakeBack<T>(s: seq<T>, x: T)
    ensures (s + [x])[..|s|] == s
  {
  }
}
