/**
  The provider as it runs: the mutable loop state, the token accumulator, the model client and the
  stream envelope, proved against the functions of ToolLoop.
  */
module ProviderRun {
  import opened Prelude
  import opened Chat
  import opened ToolBatch
  import opened ToolChoice
  import opened ToolLoop
  import Reports

  class TokenAccumulator {
    var ingested: int
    var emitted: int
    var combined: int

    function Value(): Tokens
      reads this
    {
      Tokens(ingested, emitted, combined)
    }

    constructor ()
      ensures ingested == emitted == combined == 0
    {
      ingested, emitted, combined := 0, 0, 0;
    }

    method Absorb(usage: Usage)
      modifies this
      ensures ingested == old(ingested) + usage.prompt.GetOr(0)
      ensures emitted == old(emitted) + usage.completion.GetOr(0)
      ensures combined == old(combined) + usage.total.GetOr(0)
    {
      ingested := ingested + usage.prompt.GetOr(0);
      emitted := emitted + usage.completion.GetOr(0);
      combined := combined + usage.total.GetOr(0);
    }
  }

  /** The completion endpoint: it logs each body and answers from the script. */
  class ModelClient {
    const script: Script
    var sent: seq<Body>

    constructor (script: Script)
      ensures this.script == script && sent == []
    {
      this.script := script;
      sent := [];
    }

    /** The n-th plain call gets the n-th answer; None is a call that throws. */
    method Create(body: Body) returns (answer: Option<Reply>)
      modifies this
      ensures sent == old(sent) + [body]
      ensures answer == if old(sent) == [] then script.first else script.rounds(|old(sent)| - 1).answer
    {
      answer := if sent == [] then script.first else script.rounds(|sent| - 1).answer;
      sent := sent + [body];
    }

    method CreateStream(body: Body) returns (used: Option<Tokens>)
      modifies this
      ensures sent == old(sent) + [body] && used == script.finalStream
    {
      used := script.finalStream;
      sent := sent + [body];
    }
  }

  /** The streaming result: its tokens are the prior ones until the stream has ended. */
  class StreamEnvelope {
    const prior: Tokens
    var tokens: Tokens

    constructor (prior: Tokens)
      ensures this.prior == tokens == prior
    {
      this.prior := prior;
      tokens := prior;
    }

    method OnStreamEnd(used: Tokens)
      modifies this
      ensures tokens.input == prior.input + used.input && tokens.output == prior.output + used.output
      ensures tokens.total == prior.total + used.total
    {
      tokens := Tokens(prior.input + used.input, prior.output + used.output, prior.total + used.total);
    }
  }

  /** The four ledgers that a batch is folded into. */
  datatype FoldLedgers = FoldLedgers(history: seq<Message>, trace: seq<Segment>, outputs: seq<Output>, gathered: seq<Entry>)
  {
    function Plus(turned: seq<Invocation>, reached: seq<Invocation>): FoldLedgers {
      FoldLedgers(history + Turns(turned), trace + ToolSegments(reached), outputs + Outputs(reached),
                  gathered + Entries(reached))
    }

    function Then(rec: Invocation, turned: bool): FoldLedgers {
      FoldLedgers(history + (if turned then [TurnOf(rec)] else []), trace + [ToolSegment(rec)],
                  outputs + (if rec.outcome.success then [rec.outcome.output] else []), gathered + [EntryOf(rec)])
    }
  }

  class LoopState {
    var reply: Reply
    var content: Content
    var budget: Tokens
    var gathered: seq<Entry>
    var outputs: seq<Output>
    var history: seq<Message>
    var loopIndex: nat
    var forcedUsed: seq<string>
    var activatedForced: bool
    var wallModelMs: int
    var wallToolMs: int
    var firstMs: int
    var trace: seq<Segment>

    /** The state as a value, together with the accumulator and the log of the client. */
    function Value(accumulated: Tokens, sent: seq<Body>): Loop
      reads this
    {
      Loop(reply, content, budget, gathered, outputs, history, loopIndex, Tracker(activatedForced, forcedUsed),
           wallModelMs, wallToolMs, firstMs, trace, accumulated, sent)
    }

    constructor (req: Request, reply: Reply, budget: Tokens, callT0: int, firstMs: int)
      ensures Value(budget, []) == Fresh(req, reply, budget, callT0, firstMs)
    {
      this.reply := reply;
      content := if reply.Text() != "" then Trimmed(reply.Text()) else Raw("");
      this.budget := budget;
      gathered, outputs := [], [];
      history := req.InitialHistory();
      loopIndex := 0;
      forcedUsed, activatedForced := [], false;
      wallModelMs, wallToolMs := firstMs, 0;
      this.firstMs := firstMs;
      trace := [ModelSegment(InitialResponse, callT0, firstMs)];
    }

    function Ledgers(): FoldLedgers
      reads this
    {
      FoldLedgers(history, trace, outputs, gathered)
    }

    /** Folds one settled record; threw tells that serialising its payload threw. */
    method FoldRecord(rec: Invocation) returns (threw: bool)
      modifies this`history, this`trace, this`outputs, this`gathered
      ensures threw <==> !PayloadOf(rec).Serialisable()
      ensures Ledgers() == old(Ledgers()).Then(rec, !threw)
    {
      trace := trace + [Segment(ToolUse, ToolName(rec.toolName), rec.began, rec.finished, rec.elapsed)];
      var payload := PayloadOf(rec);
      if rec.outcome.success {
        outputs := outputs + [rec.outcome.output];
      }
      gathered := gathered + [Entry(rec.toolName, rec.toolParams, rec.began, rec.finished, rec.elapsed,
                                    payload, rec.outcome.success)];
      threw := !payload.Serialisable();
      if !threw {
        history := history + [ToolTurn(rec.call.id, payload)];
      }
    }

    /** Folds the settled slots in declared order, up to the first payload that cannot be serialised. */
    method FoldInvocations(settled: seq<Slot>) returns (threw: bool)
      modifies this`history, this`trace, this`outputs, this`gathered
      ensures var recs := Records(settled);
              && (threw <==> CleanPrefix(recs) < |recs|)
              && Ledgers() == old(Ledgers()).Plus(recs[..CleanPrefix(recs)], recs[..Reached(recs)])
    {
      ghost var done: seq<Invocation> := [];
      ghost var begun := Ledgers();
      for i := 0 to |settled|
        invariant done == Records(settled[..i]) && AllSerialisable(done)
        invariant Ledgers() == begun.Plus(done, done)
      {
        NextSlot(settled, i);
        threw := FoldSlot(settled[i], begun, done);
        if threw {
          CutAt(settled, i, done, RecordOf(settled[i]).value);
          return;
        }
        done := done + Listed(RecordOf(settled[i]));
      }
      NoCut(settled);
      threw := false;
    }

    /** Folds one slot; done are the records folded before it. */
    method FoldSlot(slot: Slot, ghost begun: FoldLedgers, ghost done: seq<Invocation>) returns (threw: bool)
      requires Ledgers() == begun.Plus(done, done)
      modifies this`history, this`trace, this`outputs, this`gathered
      ensures var recs := RecordOf(slot);
              && (threw <==> recs.Some? && !PayloadOf(recs.value).Serialisable())
              && Ledgers() == begun.Plus(done + (if threw then [] else Listed(recs)), done + Listed(recs))
    {
      if slot.Rejected? || slot.value.None? {
        assert done + [] == done;
        return false;
      }
      LedgersAfter(begun, done, slot.value.value);
      assert done + [] == done;
      threw := FoldRecord(slot.value.value);
    }

    /** One tracked answer: the flag and the spent list move as Track says. */
    method TrackPins(choice: Choice, answer: Reply)
      modifies this`activatedForced, this`forcedUsed
      ensures Tracker(activatedForced, forcedUsed) ==
              Track(Tracker(old(activatedForced), old(forcedUsed)), choice, answer)
      ensures TrackLaw(Tracker(old(activatedForced), old(forcedUsed)), choice, answer, Tracker(activatedForced, forcedUsed))
    {
      TracksByTheLaw(Tracker(activatedForced, forcedUsed), choice, answer);
      if choice.Pin? && answer.Calls().Some? {
        if choice.name != "" && Invokes(answer.Calls().value, choice.name) {
          activatedForced, forcedUsed := true, forcedUsed + [choice.name];
        } else {
          activatedForced := false;
        }
      }
    }

    /** Takes an answer over; threw tells that it has no choices list. */
    method TakeReply(env: RoundScript, choice: Choice, answer: Reply, ghost accumulated: Tokens, ghost sent: seq<Body>)
      returns (threw: bool)
      modifies this
      ensures threw <==> answer.NoChoices?
      ensures Value(accumulated, sent) ==
              if threw then Unreadable(old(Value(accumulated, sent)), env, choice, answer)
              else NoteReply(old(Value(accumulated, sent)), env, choice, answer)
    {
      threw := answer.NoChoices?;
      reply := answer;
      if choice.Pin? {
        if threw {
          return;
        }
        TrackPins(choice, answer);
      }
      trace := trace + [ModelSegment(ModelResponse(loopIndex + 1), env.modelT0, env.modelEnd - env.modelT0)];
      wallModelMs := wallModelMs + (env.modelEnd - env.modelT0);
      if threw {
        return;
      }
      if answer.Text() != "" {
        content := Trimmed(answer.Text());
      }
    }
  }

  ghost predicate AllSerialisable(recs: seq<Invocation>) {
    forall j :: 0 <= j < |recs| ==> PayloadOf(recs[j]).Serialisable()
  }

  lemma {:induction false} NextSlot(settled: seq<Slot>, i: nat)
    requires i < |settled|
    ensures Records(settled[..i + 1]) == Records(settled[..i]) + Listed(RecordOf(settled[i]))
  {
    assert settled[..i + 1][..i] == settled[..i];
  }

  lemma {:induction false} LedgersAfter(l: FoldLedgers, done: seq<Invocation>, rec: Invocation)
    ensures l.Plus(done, done).Then(rec, true) == l.Plus(done + [rec], done + [rec])
    ensures l.Plus(done, done).Then(rec, false) == l.Plus(done, done + [rec])
  {
    assert (done + [rec])[..|done|] == done;
    assert ToolSegments(done + [rec]) == ToolSegments(done) + [ToolSegment(rec)];
    assert Entries(done + [rec]) == Entries(done) + [EntryOf(rec)];
    assert Turns(done + [rec]) == Turns(done) + [TurnOf(rec)];
  }

  lemma {:induction false} CutAt(settled: seq<Slot>, i: nat, done: seq<Invocation>, rec: Invocation)
    requires i < |settled| && done + [rec] == Records(settled[..i + 1])
    requires AllSerialisable(done) && !PayloadOf(rec).Serialisable()
    ensures var recs := Records(settled);
            CleanPrefix(recs) < |recs| && recs[..CleanPrefix(recs)] == done && recs[..Reached(recs)] == done + [rec]
  {
    var recs := Records(settled);
    assert settled == settled[..i + 1] + settled[i + 1..];
    PickConcat(settled[..i + 1], settled[i + 1..], RecordOf);
    assert recs[..|done| + 1] == done + [rec];
    assert forall j :: 0 <= j <= |done| ==> recs[j] == (done + [rec])[j];
    CleanPrefixIs(recs, |done|);
  }

  lemma {:induction false} NoCut(settled: seq<Slot>)
    requires AllSerialisable(Records(settled[..|settled|]))
    ensures var recs := Records(settled);
            && CleanPrefix(recs) == |recs|
            && Records(settled[..|settled|]) == recs[..CleanPrefix(recs)] == recs[..Reached(recs)] == recs
  {
    assert settled[..|settled|] == settled;
    CleanPrefixIs(Records(settled), |Records(settled)|);
  }

  /** A turn whose calls all have a function part; None when reading one throws. */
  method DeclareCalls(calls: seq<ToolCall>) returns (turn: Option<Message>)
    ensures turn == if AnyBare(calls) then None else Some(AssistantTurn(calls))
  {
    for i := 0 to |calls|
      invariant forall j :: 0 <= j < i ==> !calls[j].BareCall?
    {
      if calls[i].BareCall? {
        return None;
      }
    }
    return Some(AssistantTurn(calls));
  }

  /** The tool loop, from any state in which the next plain call is call loopIndex + 1. */
  method RunToolLoop(req: Request, pins: Pins, state: LoopState, accumulator: TokenAccumulator, client: ModelClient)
    returns (ghost why: Stop)
    requires |client.sent| == state.loopIndex + 1
    modifies state, accumulator, client
    ensures Exit(state.Value(accumulator.Value(), client.sent), why) ==
            RunLoop(Passes(req, pins, client.script), old(state.loopIndex), old(state.Value(accumulator.Value(), client.sent)))
  {
    ghost var pass := Passes(req, pins, client.script);
    ghost var start, begun := state.Value(accumulator.Value(), client.sent), state.loopIndex;
    while state.loopIndex < MAX_ROUNDS
      invariant |client.sent| == state.loopIndex + 1
      invariant RunLoop(pass, state.loopIndex, state.Value(accumulator.Value(), client.sent)) == RunLoop(pass, begun, start)
      decreases MAX_ROUNDS - state.loopIndex
    {
      ghost var i, before := state.loopIndex, state.Value(accumulator.Value(), client.sent);
      var stopped;
      stopped, why := RunRound(req, pins, state, accumulator, client);
      ghost var value := state.Value(accumulator.Value(), client.sent);
      OnePass(pass, i, before, if stopped then Stopped(value, why) else Continue(value));
      if stopped {
        return;
      }
    }
    why := Capped;
  }

  /** One pass of the loop body; stopped tells that the loop is left. */
  method RunRound(req: Request, pins: Pins, state: LoopState, accumulator: TokenAccumulator, client: ModelClient)
    returns (stopped: bool, ghost why: Stop)
    requires |client.sent| == state.loopIndex + 1
    modifies state, accumulator, client
    ensures var value := state.Value(accumulator.Value(), client.sent);
            Passes(req, pins, client.script)(old(state.loopIndex), old(state.Value(accumulator.Value(), client.sent))) ==
            if stopped then Stopped(value, why) else Continue(value)
    ensures !stopped ==> |client.sent| == state.loopIndex + 1 && state.loopIndex == old(state.loopIndex) + 1
  {
    var env := client.script.rounds(state.loopIndex);
    if state.reply.Text() != "" {
      state.content := Raw(state.reply.Text());
    }
    ghost var head := state.Value(accumulator.Value(), client.sent);
    var pending := state.reply.Pending();
    if pending == [] {
      return true, NothingPending;
    }
    var left := RunBatch(req, pending, state, env, accumulator.Value(), client.sent);
    if left.Some? {
      return true, left.value;
    }
    var failed := AskModel(pins, state, env, accumulator, client);
    stopped, why := failed.Some?, failed.GetOr(ModelFault);
  }

  /** Dispatches the declared calls and folds what they settle to; left is the exception on the way. */
  method RunBatch(req: Request, pending: seq<ToolCall>, state: LoopState, env: RoundScript,
                  ghost accumulated: Tokens, ghost sent: seq<Body>)
    returns (left: Option<Stop>)
    modifies state
    ensures var recs := Records(Slots(req, pending, env.runs));
            && state.Value(accumulated, sent) ==
               (if AnyBare(pending) then old(state.Value(accumulated, sent))
                else AfterFold(old(state.Value(accumulated, sent)), pending, recs))
            && left == if AnyBare(pending) then Some(BareCallFault)
                       else if CleanPrefix(recs) < |recs| then Some(SerialiseFault)
                       else None
  {
    var settled := DispatchToolBatch(req, pending, env.runs);
    var turn := DeclareCalls(pending);
    if turn.None? {
      return Some(BareCallFault);
    }
    state.history := state.history + [turn.value];
    var threw := state.FoldInvocations(settled);
    left := if threw then Some(SerialiseFault) else None;
  }

  /** The next model call after a folded batch; failed is the exception on the way. */
  method AskModel(pins: Pins, state: LoopState, env: RoundScript, accumulator: TokenAccumulator, client: ModelClient)
    returns (failed: Option<Stop>)
    requires |client.sent| == state.loopIndex + 1 && env == client.script.rounds(state.loopIndex)
    modifies state, accumulator, client
    ensures var value := state.Value(accumulator.Value(), client.sent);
            var asked := BeforeCall(pins, old(state.Value(accumulator.Value(), client.sent)), env);
            && |client.sent| == |old(client.sent)| + 1
            && match env.answer
               case None => failed == Some(ModelFault) && value == asked
               case Some(reply) =>
                 if reply.NoChoices?
                 then failed == Some(ReplyFault) && value == Unreadable(asked, env, NextChoice(pins, asked.tracker), reply)
                 else failed == None && value == AfterReply(pins, asked, env, reply)
  {
    state.wallToolMs := state.wallToolMs + (env.batchEnd - env.batchT0);
    var choice := NextChoice(pins, Tracker(state.activatedForced, state.forcedUsed));
    var answer := client.Create(Body(state.history, choice, false));
    if answer.None? {
      return Some(ModelFault);
    }
    var threw := state.TakeReply(env, choice, answer.value, accumulator.Value(), client.sent);
    if threw {
      return Some(ReplyFault);
    }
    CountUsage(state, accumulator, answer.value, client.sent);
    failed := None;
  }

  /** The usage of a reply goes into the accumulator and from there into the budget. */
  method CountUsage(state: LoopState, accumulator: TokenAccumulator, reply: Reply, ghost sent: seq<Body>)
    modifies state`budget, state`loopIndex, accumulator
    ensures state.Value(accumulator.Value(), sent) == CountReply(old(state.Value(accumulator.Value(), sent)), reply)
  {
    if reply.usage.Some? {
      accumulator.Absorb(reply.usage.value);
      state.budget := accumulator.Value();
    }
    state.loopIndex := state.loopIndex + 1;
  }

  /** executeRequest, from the key guard to the result. */
  method ExecuteRequest(req: Request, script: Script) returns (run: Execution)
    ensures run == Execute(req, script)
    ensures Reports.RequestLaw(req, script, run)
  {
    Reports.EveryRequest(req, script);
    if !req.hasKey {
      return Execution(Refused, []);
    }
    var client := new ModelClient(script);
    var pins := PrepareTools(req);
    if req.stream && req.Tools() == [] {
      var used := client.CreateStream(Body(req.InitialHistory(), pins.original, true));
      if used.None? {
        return Execution(Errored, client.sent);
      }
      var direct := new StreamEnvelope(Tokens(0, 0, 0));
      direct.OnStreamEnd(used.value);
      return Execution(StreamedDirectly(direct.tokens), client.sent);
    }

    run := ExecuteWithTools(req, pins, client);
  }

  /** Everything but the fast streaming path: the first call, the loop and the result. */
  method ExecuteWithTools(req: Request, pins: Pins, client: ModelClient) returns (run: Execution)
    requires pins == PrepareTools(req) && client.sent == []
    modifies client
    ensures run == if !Readable(client.script.first) then Execution(Errored, [Body(req.InitialHistory(), pins.original, false)])
                   else Finish(req, client.script, TheExit(req, client.script).state)
  {
    var script := client.script;
    var first := client.Create(Body(req.InitialHistory(), pins.original, false));
    if !Readable(first) {
      return Execution(Errored, client.sent);
    }
    assert client.sent == [Body(req.InitialHistory(), pins.original, false)];
    var state, accumulator := FirstReply(req, pins, script, first.value);
    ghost var start := Start(req, pins, script);
    assert state.Value(accumulator.Value(), client.sent) == start;
    ghost var why := RunToolLoop(req, pins, state, accumulator, client);
    run := Deliver(req, state, accumulator, client);
  }

  /** The loop state after the first reply, its usage absorbed and its tool calls tracked. */
  method FirstReply(req: Request, pins: Pins, script: Script, first: Reply)
    returns (state: LoopState, accumulator: TokenAccumulator)
    requires script.first == Some(first)
    ensures fresh(state) && fresh(accumulator) && state.loopIndex == 0
    ensures state.Value(accumulator.Value(), [Body(req.InitialHistory(), pins.original, false)]) == Start(req, pins, script)
  {
    accumulator := new TokenAccumulator();
    if first.usage.Some? {
      accumulator.Absorb(first.usage.value);
    }
    state := new LoopState(req, first, accumulator.Value(), script.callT0, script.firstEnd - script.callT0);
    state.TrackPins(pins.original, first);
  }

  /** The result after the loop: a last streaming call, or the plain answer. */
  method Deliver(req: Request, state: LoopState, accumulator: TokenAccumulator, client: ModelClient)
    returns (run: Execution)
    modifies client
    ensures run == Finish(req, client.script, old(state.Value(accumulator.Value(), client.sent)))
  {
    if req.stream {
      var used := client.CreateStream(Body(state.history, Auto, true));
      if used.None? {
        return Execution(Errored, client.sent);
      }
      var envelope := new StreamEnvelope(state.budget);
      envelope.OnStreamEnd(used.value);
      return Execution(Streamed(envelope.tokens, state.gathered, state.wallModelMs, state.wallToolMs,
                                state.firstMs, state.loopIndex + 1, state.trace), client.sent);
    }
    return Execution(Answered(state.content.Shown(), state.budget, state.gathered, state.outputs,
                              Timing(client.script.tEnd - client.script.t0, state.wallModelMs, state.wallToolMs,
                                     state.firstMs, state.loopIndex + 1, state.trace)),
                     client.sent);
  }
}
