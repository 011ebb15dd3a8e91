/**
  One provider request as a function of the request and the script of outside answers: the state of
  the tool loop, one pass of it, the whole loop, and the result that is handed back.
  */
module ToolLoop {
  import opened Prelude
  import opened Chat
  import opened ToolBatch
  import opened ToolChoice
  import Text

  const MAX_ROUNDS: nat := 20

  /** The text of a reply as it came, or what the fence trimmer makes of it. */
  datatype Content = Raw(text: string) | Trimmed(text: string) {
    function Shown(): string {
      match this
      case Raw(text) => text
      case Trimmed(text) => Text.TrimFences(text)
    }
  }

  /** The value of the mutable loop state, the accumulator and the log of sent bodies. */
  datatype Loop = Loop(reply: Reply, content: Content, budget: Tokens, gathered: seq<Entry>,
                       outputs: seq<Output>, history: seq<Message>, loopIndex: nat, tracker: Tracker,
                       wallModel: int, wallTool: int, firstMs: int, trace: seq<Segment>,
                       accumulated: Tokens, sent: seq<Body>)

  /** Why the loop was left. The four faults are exceptions that the loop swallows. */
  datatype Stop = NothingPending | Capped | BareCallFault | SerialiseFault | ModelFault | ReplyFault {
    /** The pass had made its model call. */
    predicate AfterCall() { this in {ModelFault, ReplyFault} }

    /** The pass had pushed its assistant turn. */
    predicate AfterTurn() { this == SerialiseFault || AfterCall() }
  }

  datatype Turn = Continue(state: Loop) | Stopped(state: Loop, why: Stop)

  datatype Exit = Exit(state: Loop, why: Stop)

  // ---------- The loop ----------

  /** The state before the tools of the first reply are tracked. */
  function Fresh(req: Request, reply: Reply, used: Tokens, callT0: int, firstMs: int): Loop {
    Loop(reply, if reply.Text() != "" then Trimmed(reply.Text()) else Raw(""), used, [], [], req.InitialHistory(), 0,
         FRESH, firstMs, 0, firstMs, [ModelSegment(InitialResponse, callT0, firstMs)], used, [])
  }

  function Start(req: Request, pins: Pins, script: Script): Loop {
    var reply := ReplyAt(script, 0);
    Fresh(req, reply, UsageTokens(reply.usage), script.callT0, script.firstEnd - script.callT0).(
    tracker := Track(FRESH, pins.original, reply),
    sent := [Body(req.InitialHistory(), pins.original, false)])
  }

  predicate AnyBare(calls: seq<ToolCall>) {
    exists i :: 0 <= i < |calls| && calls[i].BareCall?
  }

  /** The state after the head of a pass has looked at the latest text. */
  function AtHead(s: Loop): Loop {
    if s.reply.Text() != "" then s.(content := Raw(s.reply.Text())) else s
  }

  /** The state after a batch with these records was declared and folded, the exception included. */
  function AfterFold(s: Loop, calls: seq<ToolCall>, recs: seq<Invocation>): Loop {
    var n := Reached(recs);
    s.(history := s.history + [AssistantTurn(calls)] + Turns(recs[..CleanPrefix(recs)]),
       trace := s.trace + ToolSegments(recs[..n]),
       outputs := s.outputs + Outputs(recs[..n]),
       gathered := s.gathered + Entries(recs[..n]))
  }

  function BeforeCall(pins: Pins, s: Loop, env: RoundScript): Loop {
    s.(wallTool := s.wallTool + (env.batchEnd - env.batchT0),
       sent := s.sent + [Body(s.history, NextChoice(pins, s.tracker), false)])
  }

  /** The clock and the trace of a model call that was answered. */
  function CallSegment(loopIndex: nat, env: RoundScript): Segment {
    ModelSegment(ModelResponse(loopIndex + 1), env.modelT0, env.modelEnd - env.modelT0)
  }

  /**
    The model has answered without a choices list. Tracking a pin reads it first, before the call is
    traced; without a pin the text is read, after the call was traced.
    */
  function Unreadable(s: Loop, env: RoundScript, choice: Choice, reply: Reply): Loop {
    if choice.Pin? then s.(reply := reply)
    else
      s.(reply := reply,
         trace := s.trace + [CallSegment(s.loopIndex, env)],
         wallModel := s.wallModel + (env.modelEnd - env.modelT0))
  }

  /** The model has answered a body with this choice. */
  function NoteReply(s: Loop, env: RoundScript, choice: Choice, reply: Reply): Loop {
    var elapsed := env.modelEnd - env.modelT0;
    s.(reply := reply,
       tracker := Track(s.tracker, choice, reply),
       trace := s.trace + [CallSegment(s.loopIndex, env)],
       wallModel := s.wallModel + elapsed,
       content := if reply.Text() != "" then Trimmed(reply.Text()) else s.content)
  }

  /** The end of a pass: its usage is absorbed and the index moves on. */
  function CountReply(s: Loop, reply: Reply): Loop {
    var accumulated := s.accumulated.Plus(UsageTokens(reply.usage));
    s.(accumulated := accumulated,
       budget := if reply.usage.Some? then accumulated else s.budget,
       loopIndex := s.loopIndex + 1)
  }

  function AfterReply(pins: Pins, s: Loop, env: RoundScript, reply: Reply): Loop {
    CountReply(NoteReply(s, env, NextChoice(pins, s.tracker), reply), reply)
  }

  /** One pass of the while body. */
  function Round(req: Request, pins: Pins, s: Loop, env: RoundScript): Turn {
    var head := AtHead(s);
    var calls := head.reply.Pending();
    if calls == [] then Stopped(head, NothingPending)
    else if AnyBare(calls) then Stopped(head, BareCallFault)
    else
      var recs := Records(Slots(req, calls, env.runs));
      var folded := AfterFold(head, calls, recs);
      if CleanPrefix(recs) < |recs| then Stopped(folded, SerialiseFault)
      else
        var asked := BeforeCall(pins, folded, env);
        match env.answer
        case None => Stopped(asked, ModelFault)
        case Some(reply) =>
          if reply.NoChoices? then Stopped(Unreadable(asked, env, NextChoice(pins, asked.tracker), reply), ReplyFault)
          else Continue(AfterReply(pins, asked, env, reply))
  }

  /** At most MAX_ROUNDS passes; i is the loop index of s. */
  function RunLoop(pass: (nat, Loop) -> Turn, i: nat, s: Loop): Exit
    decreases MAX_ROUNDS - i
  {
    if i >= MAX_ROUNDS then Exit(s, Capped)
    else
      match pass(i, s)
      case Stopped(state, why) => Exit(state, why)
      case Continue(state) => RunLoop(pass, i + 1, state)
  }

  lemma {:induction false} OnePass(pass: (nat, Loop) -> Turn, i: nat, s: Loop, turn: Turn)
    requires i < MAX_ROUNDS && pass(i, s) == turn
    ensures RunLoop(pass, i, s) ==
            match turn case Stopped(state, why) => Exit(state, why) case Continue(state) => RunLoop(pass, i + 1, state)
  {
  }

  function Passes(req: Request, pins: Pins, script: Script): (nat, Loop) -> Turn {
    (i: nat, s: Loop) => Round(req, pins, s, script.rounds(i))
  }

  // ---------- The request ----------

  datatype Timing = Timing(duration: int, modelTime: int, toolsTime: int, firstResponse: int,
                           iterations: nat, segments: seq<Segment>)

  /** Streamed is read after the stream has ended; its duration is not part of this model. */
  datatype Result =
    | Refused
    | Errored
    | Answered(content: string, tokens: Tokens, toolCalls: seq<Entry>, toolResults: seq<Output>, timing: Timing)
    | Streamed(tokens: Tokens, toolCalls: seq<Entry>, modelTime: int, toolsTime: int, firstResponse: int, iterations: nat,
               segments: seq<Segment>)
    | StreamedDirectly(tokens: Tokens)

  datatype Execution = Execution(result: Result, sent: seq<Body>)

  function TheExit(req: Request, script: Script): Exit {
    var pins := PrepareTools(req);
    RunLoop(Passes(req, pins, script), 0, Start(req, pins, script))
  }

  function Finish(req: Request, script: Script, s: Loop): Execution {
    if req.stream then
      var sent := s.sent + [Body(s.history, Auto, true)];
      match script.finalStream
      case None => Execution(Errored, sent)
      case Some(used) =>
        Execution(Streamed(s.budget.Plus(used), s.gathered, s.wallModel, s.wallTool, s.firstMs, s.loopIndex + 1, s.trace), sent)
    else
      Execution(Answered(s.content.Shown(), s.budget, s.gathered, s.outputs,
                         Timing(script.tEnd - script.t0, s.wallModel, s.wallTool, s.firstMs, s.loopIndex + 1, s.trace)),
                s.sent)
  }

  function Execute(req: Request, script: Script): Execution {
    var pins := PrepareTools(req);
    if !req.hasKey then Execution(Refused, [])
    else if req.stream && req.Tools() == [] then
      var sent := [Body(req.InitialHistory(), pins.original, true)];
      match script.finalStream
      case None => Execution(Errored, sent)
      case Some(used) => Execution(StreamedDirectly(used), sent)
    else if !Readable(script.first) then
      Execution(Errored, [Body(req.InitialHistory(), pins.original, false)])
    else Finish(req, script, TheExit(req, script).state)
  }

  // ---------- The run in closed form ----------

  function Calls(script: Script, k: nat): seq<ToolCall> {
    ReplyAt(script, k).Pending()
  }

  /** The records of round k, had it been run to its end. */
  function RoundRecords(req: Request, script: Script, k: nat): seq<Invocation> {
    Records(Slots(req, Calls(script, k), script.rounds(k).runs))
  }

  function HistoryUpTo(req: Request, script: Script, k: nat): seq<Message> {
    if k == 0 then req.InitialHistory()
    else HistoryUpTo(req, script, k - 1) + [AssistantTurn(Calls(script, k - 1))] + Turns(RoundRecords(req, script, k - 1))
  }

  function EntriesUpTo(req: Request, script: Script, k: nat): seq<Entry> {
    if k == 0 then [] else EntriesUpTo(req, script, k - 1) + Entries(RoundRecords(req, script, k - 1))
  }

  function OutputsUpTo(req: Request, script: Script, k: nat): seq<Output> {
    if k == 0 then [] else OutputsUpTo(req, script, k - 1) + Outputs(RoundRecords(req, script, k - 1))
  }

  function RoundSegment(script: Script, k: nat): Segment {
    CallSegment(k, script.rounds(k))
  }

  function TraceUpTo(req: Request, script: Script, k: nat): seq<Segment> {
    if k == 0 then [ModelSegment(InitialResponse, script.callT0, script.firstEnd - script.callT0)]
    else TraceUpTo(req, script, k - 1) + ToolSegments(RoundRecords(req, script, k - 1)) + [RoundSegment(script, k - 1)]
  }

  /** The sum of the usages of replies 0 to k; a call that throws has none. */
  function UsageUpTo(script: Script, k: nat): Tokens {
    if k == 0 then UsageTokens(ReplyAt(script, 0).usage)
    else UsageUpTo(script, k - 1).Plus(UsageTokens(ReplyAt(script, k).usage))
  }

  /** The raw text of the latest of replies 0 to k that carried any. */
  function LatestText(script: Script, k: nat): string {
    if ReplyAt(script, k).Text() != "" then ReplyAt(script, k).Text()
    else if k == 0 then ""
    else LatestText(script, k - 1)
  }

  function WallModelUpTo(script: Script, k: nat): int {
    if k == 0 then script.firstEnd - script.callT0
    else WallModelUpTo(script, k - 1) + (script.rounds(k - 1).modelEnd - script.rounds(k - 1).modelT0)
  }

  function WallToolUpTo(script: Script, k: nat): int {
    if k == 0 then 0
    else WallToolUpTo(script, k - 1) + (script.rounds(k - 1).batchEnd - script.rounds(k - 1).batchT0)
  }

  /** The body of the k-th non-streaming call, should it be made. */
  function BodyAt(req: Request, pins: Pins, script: Script, k: nat): Body {
    Body(HistoryUpTo(req, script, k), ChoiceAt(pins, script, k), false)
  }

  /** The bodies of the first k + 1 non-streaming calls. */
  function SentUpTo(req: Request, pins: Pins, script: Script, k: nat): (r: seq<Body>)
    ensures |r| == k + 1 && forall i :: 0 <= i <= k ==> r[i] == BodyAt(req, pins, script, i)
  {
    seq(k + 1, i requires 0 <= i <= k => BodyAt(req, pins, script, i))
  }

  lemma {:induction false} SentGrows(req: Request, pins: Pins, script: Script, k: nat)
    ensures SentUpTo(req, pins, script, k + 1) == SentUpTo(req, pins, script, k) + [BodyAt(req, pins, script, k + 1)]
  {
  }

  /** The whole state when the loop condition is tested for the (k + 1)-th time. */
  function LoopHead(req: Request, pins: Pins, script: Script, k: nat): Loop {
    var reply := ReplyAt(script, k);
    Loop(reply,
         if reply.Text() != "" then Trimmed(reply.Text()) else Raw(LatestText(script, k)),
         UsageUpTo(script, k), EntriesUpTo(req, script, k), OutputsUpTo(req, script, k),
         HistoryUpTo(req, script, k), k, TrackerAt(pins, script, k),
         WallModelUpTo(script, k), WallToolUpTo(script, k), script.firstEnd - script.callT0,
         TraceUpTo(req, script, k), UsageUpTo(script, k), SentUpTo(req, pins, script, k))
  }

  lemma {:induction false} StartIsHeadZero(req: Request, pins: Pins, script: Script)
    ensures Start(req, pins, script) == LoopHead(req, pins, script, 0)
  {
  }

  /** A batch none of whose records throws is folded whole. */
  lemma {:induction false} FoldOfCleanRecords(s: Loop, calls: seq<ToolCall>, recs: seq<Invocation>)
    requires CleanPrefix(recs) == |recs|
    ensures AfterFold(s, calls, recs) ==
            s.(history := s.history + [AssistantTurn(calls)] + Turns(recs), trace := s.trace + ToolSegments(recs),
               outputs := s.outputs + Outputs(recs), gathered := s.gathered + Entries(recs))
  {
    assert recs[..|recs|] == recs;
  }

  /** The state after a completed pass from head k, given the fold of its batch. */
  function NextState(pins: Pins, script: Script, k: nat, folded: Loop): Loop {
    AfterReply(pins, BeforeCall(pins, folded, script.rounds(k)), script.rounds(k), ReplyAt(script, k + 1))
  }

  lemma {:induction false} NextContent(req: Request, pins: Pins, script: Script, k: nat, folded: Loop)
    requires folded.content == Raw(LatestText(script, k))
    ensures NextState(pins, script, k, folded).content == LoopHead(req, pins, script, k + 1).content
  {
  }

  lemma {:induction false} NextWalls(req: Request, pins: Pins, script: Script, k: nat, folded: Loop)
    requires folded.wallModel == WallModelUpTo(script, k) && folded.wallTool == WallToolUpTo(script, k)
    ensures var next, head := NextState(pins, script, k, folded), LoopHead(req, pins, script, k + 1);
            next.wallModel == head.wallModel && next.wallTool == head.wallTool
  {
  }

  lemma {:induction false} NothingAdded(t: Tokens)
    ensures t.Plus(UsageTokens(None)) == t
  {
  }

  lemma {:induction false} NextTokens(req: Request, pins: Pins, script: Script, k: nat, folded: Loop)
    requires folded.accumulated == folded.budget == UsageUpTo(script, k)
    ensures var next, head := NextState(pins, script, k, folded), LoopHead(req, pins, script, k + 1);
            next.accumulated == head.accumulated && next.budget == head.budget
  {
    NothingAdded(UsageUpTo(script, k));
  }

  lemma {:induction false} NextTracker(req: Request, pins: Pins, script: Script, k: nat, folded: Loop)
    requires folded.tracker == TrackerAt(pins, script, k)
    ensures NextState(pins, script, k, folded).tracker == LoopHead(req, pins, script, k + 1).tracker
  {
  }

  lemma {:induction false} NextTrace(req: Request, pins: Pins, script: Script, k: nat, folded: Loop)
    requires folded.loopIndex == k
    requires folded.trace == TraceUpTo(req, script, k) + ToolSegments(RoundRecords(req, script, k))
    ensures NextState(pins, script, k, folded).trace == LoopHead(req, pins, script, k + 1).trace
  {
  }

  lemma {:induction false} NextSent(req: Request, pins: Pins, script: Script, k: nat, folded: Loop)
    requires folded.tracker == TrackerAt(pins, script, k) && folded.history == HistoryUpTo(req, script, k + 1)
    requires folded.sent == SentUpTo(req, pins, script, k)
    ensures NextState(pins, script, k, folded).sent == LoopHead(req, pins, script, k + 1).sent
  {
    SentGrows(req, pins, script, k);
  }

  lemma {:induction false} NextPlain(req: Request, pins: Pins, script: Script, k: nat, folded: Loop)
    requires folded.gathered == EntriesUpTo(req, script, k + 1) && folded.outputs == OutputsUpTo(req, script, k + 1)
    requires folded.history == HistoryUpTo(req, script, k + 1) && folded.loopIndex == k
    requires folded.firstMs == script.firstEnd - script.callT0
    ensures var next, head := NextState(pins, script, k, folded), LoopHead(req, pins, script, k + 1);
            && next.reply == head.reply && next.gathered == head.gathered && next.outputs == head.outputs
            && next.history == head.history && next.loopIndex == head.loopIndex && next.firstMs == head.firstMs
  {
  }

  lemma {:induction false} SameFields(a: Loop, b: Loop)
    requires a.reply == b.reply && a.content == b.content && a.budget == b.budget && a.gathered == b.gathered
    requires a.outputs == b.outputs && a.history == b.history && a.loopIndex == b.loopIndex && a.tracker == b.tracker
    requires a.wallModel == b.wallModel && a.wallTool == b.wallTool && a.firstMs == b.firstMs && a.trace == b.trace
    requires a.accumulated == b.accumulated && a.sent == b.sent
    ensures a == b
  {
  }

  /** The fold of head k's batch when none of its records throws. */
  function FoldedHead(req: Request, pins: Pins, script: Script, k: nat): (folded: Loop)
    ensures folded.content == Raw(LatestText(script, k)) && folded.tracker == TrackerAt(pins, script, k)
    ensures folded.loopIndex == k && folded.sent == SentUpTo(req, pins, script, k)
  {
    LoopHead(req, pins, script, k).(
    content := Raw(LatestText(script, k)), history := HistoryUpTo(req, script, k + 1),
    trace := TraceUpTo(req, script, k) + ToolSegments(RoundRecords(req, script, k)),
    outputs := OutputsUpTo(req, script, k + 1), gathered := EntriesUpTo(req, script, k + 1))
  }

  lemma {:induction false} FoldLeadsToNextHead(req: Request, pins: Pins, script: Script, k: nat)
    ensures NextState(pins, script, k, FoldedHead(req, pins, script, k)) == LoopHead(req, pins, script, k + 1)
  {
    var folded := FoldedHead(req, pins, script, k);
    NextContent(req, pins, script, k, folded);
    NextWalls(req, pins, script, k, folded);
    NextTokens(req, pins, script, k, folded);
    NextTracker(req, pins, script, k, folded);
    NextTrace(req, pins, script, k, folded);
    NextSent(req, pins, script, k, folded);
    NextPlain(req, pins, script, k, folded);
    SameFields(NextState(pins, script, k, folded), LoopHead(req, pins, script, k + 1));
  }

  /** A pass that goes on leads from one loop head to the next. */
  lemma {:induction false} RoundGoesToNextHead(req: Request, pins: Pins, script: Script, k: nat)
    requires Round(req, pins, LoopHead(req, pins, script, k), script.rounds(k)).Continue?
    ensures Round(req, pins, LoopHead(req, pins, script, k), script.rounds(k)).state == LoopHead(req, pins, script, k + 1)
  {
    CleanRound(req, pins, script, k, LoopHead(req, pins, script, k));
    HeadFolds(req, pins, script, k);
    FoldLeadsToNextHead(req, pins, script, k);
  }

  lemma {:induction false} HeadFolds(req: Request, pins: Pins, script: Script, k: nat)
    requires CleanPrefix(RoundRecords(req, script, k)) == |RoundRecords(req, script, k)|
    ensures AfterFold(AtHead(LoopHead(req, pins, script, k)), Calls(script, k), RoundRecords(req, script, k)) ==
            FoldedHead(req, pins, script, k)
  {
    FoldOfCleanRecords(AtHead(LoopHead(req, pins, script, k)), Calls(script, k), RoundRecords(req, script, k));
  }

  /** A pass that goes on has folded its batch whole and read the next reply. */
  lemma {:induction false} CleanRound(req: Request, pins: Pins, script: Script, k: nat, s: Loop)
    requires s.reply == ReplyAt(script, k) && Round(req, pins, s, script.rounds(k)).Continue?
    ensures CleanPrefix(RoundRecords(req, script, k)) == |RoundRecords(req, script, k)|
    ensures Round(req, pins, s, script.rounds(k)).state ==
            NextState(pins, script, k, AfterFold(AtHead(s), Calls(script, k), RoundRecords(req, script, k)))
  {
  }

  /** A run that passes through these states at loop heads k, k + 1, ..., n and leaves head n. */
  ghost predicate LeftFrom(pass: (nat, Loop) -> Turn, heads: nat -> Loop, k: nat, n: nat, exit: Exit) {
    && k <= n <= MAX_ROUNDS
    && (forall i :: k <= i < n ==> pass(i, heads(i)).Continue?)
    && (if n == MAX_ROUNDS then exit == Exit(heads(n), Capped) else pass(n, heads(n)) == Stopped(exit.state, exit.why))
  }

  ghost predicate Along(pass: (nat, Loop) -> Turn, heads: nat -> Loop, i: nat) {
    pass(i, heads(i)).Continue? ==> pass(i, heads(i)).state == heads(i + 1)
  }

  lemma {:induction false} RunAlong(pass: (nat, Loop) -> Turn, heads: nat -> Loop, k: nat) returns (n: nat)
    requires k <= MAX_ROUNDS
    requires forall i: nat :: Along(pass, heads, i)
    ensures LeftFrom(pass, heads, k, n, RunLoop(pass, k, heads(k)))
    decreases MAX_ROUNDS - k
  {
    n := k;
    assert Along(pass, heads, k);
    if k == MAX_ROUNDS || pass(k, heads(k)).Stopped? {
    } else {
      n := RunAlong(pass, heads, k + 1);
    }
  }

  function Heads(req: Request, pins: Pins, script: Script): nat -> Loop {
    (k: nat) => LoopHead(req, pins, script, k)
  }

  /** The run goes through heads 0 to n and leaves the loop at head n. */
  ghost predicate LeavesAt(req: Request, script: Script, n: nat) {
    var pins := PrepareTools(req);
    LeftFrom(Passes(req, pins, script), Heads(req, pins, script), 0, n, TheExit(req, script))
  }

  /** Every run is a run through loop heads 0, 1, ..., n and one way out of head n. */
  lemma {:induction false} ExitIsFromAHead(req: Request, script: Script) returns (n: nat)
    ensures LeavesAt(req, script, n)
  {
    var pins := PrepareTools(req);
    var pass, heads := Passes(req, pins, script), Heads(req, pins, script);
    StartIsHeadZero(req, pins, script);
    forall i: nat ensures Along(pass, heads, i) {
      HeadGoesAlong(req, pins, script, i);
    }
    n := RunAlong(pass, heads, 0);
  }

  lemma {:induction false} HeadGoesAlong(req: Request, pins: Pins, script: Script, i: nat)
    ensures Along(Passes(req, pins, script), Heads(req, pins, script), i)
  {
    if Round(req, pins, LoopHead(req, pins, script, i), script.rounds(i)).Continue? {
      RoundGoesToNextHead(req, pins, script, i);
    }
  }
}
