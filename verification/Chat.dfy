/**
  The values that travel between the provider, the model and the tools: messages, replies, tool
  calls, token counts, and the script of everything the outside world answers during one request.
  */
module Chat {
  import opened Prelude

  // ---------- Messages and replies ----------

  /** A tool call of a reply. A BareCall carries no function part, so reading its name throws. */
  datatype ToolCall = FunctionCall(id: string, name: string, arguments: string) | BareCall(id: string)

  datatype Usage = Usage(prompt: Option<int>, completion: Option<int>, total: Option<int>)

  /**
    The parts of a chat completion that are read; a missing choice or message reads as None. Reading
    any part but the usage of a completion without a choices list throws.
    */
  datatype Reply =
    | Reply(content: Option<string>, calls: Option<seq<ToolCall>>, usage: Option<Usage>)
    | NoChoices(usage: Option<Usage>)
  {
    function Text(): string { if Reply? then content.GetOr("") else "" }
    function Calls(): Option<seq<ToolCall>> { if Reply? then calls else None }
    function Pending(): seq<ToolCall> { Calls().GetOr([]) }
  }

  /** What a tool handed back. Value(None) is a value that JSON.stringify rejects. */
  datatype Output = Undefined | Value(json: Option<string>)

  datatype Outcome = Outcome(success: bool, output: Output, error: Option<string>)

  /** A failure without a message of its own stands for the stock text. */
  datatype Payload = EmptyObject | Passed(json: Option<string>) | Failure(message: Option<string>, tool: string) {
    predicate Serialisable() { Passed? ==> json.Some? }
  }

  datatype Role = SystemRole | UserRole | OtherRole(name: string)

  datatype Message =
    | Plain(role: Role, text: string)
    | AssistantTurn(calls: seq<ToolCall>)
    | ToolTurn(callId: string, payload: Payload)

  // ---------- The request ----------

  datatype UsageControl = Allowed | Forced | Suppressed

  datatype Tool = Tool(id: string, control: UsageControl)

  /** tools == None is a request without a tool list. Parsing arguments is a function of the text. */
  datatype Request = Request(hasKey: bool, systemPrompt: string, context: string, messages: seq<Message>,
                             tools: Option<seq<Tool>>, stream: bool, parses: string -> bool)
  {
    function Tools(): seq<Tool> { tools.GetOr([]) }

    predicate Offers(name: string) {
      exists i :: 0 <= i < |Tools()| && Tools()[i].id == name
    }

    function InitialHistory(): seq<Message> {
      (if systemPrompt != "" then [Plain(SystemRole, systemPrompt)] else []) +
      (if context != "" then [Plain(UserRole, context)] else []) +
      messages
    }
  }

  /** tool_choice as it is sent; Unset is a body without the field. */
  datatype Choice = Unset | Auto | Pin(name: string)

  /** A body handed to the completion endpoint. */
  datatype Body = Body(messages: seq<Message>, choice: Choice, stream: bool)

  // ---------- What the outside world answers ----------

  datatype Effect = Threw(message: Option<string>) | Returned(outcome: Outcome)

  /** One concurrent tool call: its two clock readings and what parsing and running it gives. */
  datatype ToolRun = ToolRun(began: int, finished: int, parseError: string, params: string, effect: Effect)

  /** One pass of the loop. answer == None is a model call that throws. */
  datatype RoundScript = RoundScript(batchT0: int, runs: nat -> ToolRun, batchEnd: int,
                                     modelT0: int, answer: Option<Reply>, modelEnd: int)

  /**
    Everything one request is answered with, clock readings included. Rounds that a run does not
    reach are there but never looked at. finalStream == None is a streaming call that throws.
    */
  datatype Script = Script(t0: int, callT0: int, first: Option<Reply>, firstEnd: int,
                           rounds: nat -> RoundScript, finalStream: Option<Tokens>, tEnd: int)

  const NO_REPLY := Reply(None, None, None)

  /** The answer is there and can be read. */
  predicate Readable(answer: Option<Reply>) {
    answer.Some? && answer.value.Reply?
  }

  /** The answer of plain call k; None is a call that throws. */
  function AnswerOf(script: Script, k: nat): Option<Reply> {
    if k == 0 then script.first else script.rounds(k - 1).answer
  }

  /** The k-th completed non-streaming reply of a run that gets that far. */
  function ReplyAt(script: Script, k: nat): Reply {
    AnswerOf(script, k).GetOr(NO_REPLY)
  }

  // ---------- Ledgers ----------

  datatype Tokens = Tokens(input: int, output: int, total: int) {
    function Plus(t: Tokens): Tokens {
      Tokens(input + t.input, output + t.output, total + t.total)
    }
  }

  /** The tokens of a usage; what is absent counts as nothing. */
  function UsageTokens(usage: Option<Usage>): Tokens {
    Tokens(if usage.Some? then usage.value.prompt.GetOr(0) else 0,
           if usage.Some? then usage.value.completion.GetOr(0) else 0,
           if usage.Some? then usage.value.total.GetOr(0) else 0)
  }

  datatype SegmentKind = Model | ToolUse

  /** The title of a segment: the two texts for model calls, or the tool's name. */
  datatype Title = InitialResponse | ModelResponse(iteration: nat) | ToolName(name: string)

  datatype Segment = Segment(kind: SegmentKind, title: Title, start: int, end: int, duration: int)

  function ModelSegment(title: Title, start: int, duration: int): Segment {
    Segment(Model, title, start, start + duration, duration)
  }

  /** An entry of the gathered tool calls; arguments == None is the empty object of a failed dispatch. */
  datatype Entry = Entry(name: string, arguments: Option<string>, start: int, end: int, duration: int,
                         result: Payload, success: bool)
}
