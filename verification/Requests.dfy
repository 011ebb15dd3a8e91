/** What every request hands back and every model call it made, from the outside answers alone. */
module Requests {
  import opened Prelude
  import opened Chat
  import opened ToolChoice
  import opened ToolLoop
  import opened LoopProperties
  import opened LoopLedgers

  /** All laws of the tool loop, for every request and everything the outside world may answer. */
  ghost predicate LoopLaws(req: Request, script: Script, exit: Exit) {
    && WentOnUntil(req, script, exit.state.loopIndex) && ExitReason(req, script, exit)
    && HistoryLaw(req, script, exit) && TurnLaw(req, exit)
    && SentLaw(req, script, exit)
    && LedgerLaw(req, exit)
    && ContentLaw(script, exit)
    && (ClockNeverStepsBack(script) ==> TimeLaw(script, exit) && BatchLaw(script, exit))
  }

  ghost predicate BatchLaw(script: Script, exit: Exit) {
    forall i :: 0 <= i < |exit.state.trace| && exit.state.trace[i].kind.ToolUse? ==>
      InItsBatch(script, exit.state.trace, i)
  }

  lemma {:induction false} EveryRun(req: Request, script: Script)
    ensures LoopLaws(req, script, TheExit(req, script))
  {
    EveryExitIs(req, script);
    ExitObeysLaws(req, script, TheExit(req, script));
  }

  lemma {:induction false} ExitObeysLaws(req: Request, script: Script, exit: Exit)
    requires ExitIs(req, script, exit)
    ensures LoopLaws(req, script, exit)
  {
    HistoryShape(req, script, exit);
    AssistantTurnsCounted(req, script, exit);
    BodiesSent(req, script, exit);
    LedgersAgree(req, script, exit);
    ContentProvenance(req, script, exit);
    if ClockNeverStepsBack(script) {
      TimesFit(req, script, exit);
      forall i | 0 <= i < |exit.state.trace| && exit.state.trace[i].kind.ToolUse?
        ensures InItsBatch(script, exit.state.trace, i)
      {
        ToolSegmentsInTheirBatches(req, script, exit, i);
      }
    }
  }

  // ---------- What is reported ----------

  /** How many of the plain calls 0 to k complete. */
  function Completed(script: Script, k: nat): nat {
    (if k == 0 then 0 else Completed(script, k - 1)) + (if AnswerOf(script, k).Some? then 1 else 0)
  }

  ghost predicate AllPlain(sent: seq<Body>) {
    forall i :: 0 <= i < |sent| ==> !sent[i].stream
  }

  /** Every completed one of the first plain calls has a choices list. */
  ghost predicate AllReadable(script: Script, plainCalls: nat) {
    forall i :: 0 <= i < plainCalls && AnswerOf(script, i).Some? ==> Readable(AnswerOf(script, i))
  }

  ghost predicate Weightless(t: Tokens) {
    t.input == 0 && t.output == 0 && t.total == 0
  }

  /**
    Of at most 21 plain calls all but perhaps the last were answered readably, and the reported
    iterations and tokens are those of the readable ones. They are those of all completed calls exactly
    when every completed reply has a choices list; the tokens also when the one that has none cost none.
    */
  ghost predicate Reported(script: Script, plainCalls: nat, iterations: nat, used: Tokens) {
    && 1 <= iterations <= plainCalls <= iterations + 1 && plainCalls <= 1 + MAX_ROUNDS
    && (forall i :: 0 <= i < iterations ==> Readable(AnswerOf(script, i)))
    && (iterations < plainCalls ==> !Readable(AnswerOf(script, iterations)))
    && used == UsageUpTo(script, iterations - 1)
    && (iterations == Completed(script, plainCalls - 1) <==> AllReadable(script, plainCalls))
    && (used == UsageUpTo(script, plainCalls - 1) <==>
        AllReadable(script, plainCalls) || Weightless(UsageTokens(ReplyAt(script, plainCalls - 1).usage)))
  }

  /**
    What each kind of result says about the calls that were made. Only a streaming request makes a
    streaming call, it is the last one, and after tool rounds it is sent with tool_choice auto.
    */
  ghost predicate ReportLaw(req: Request, script: Script, run: Execution) {
    var sent := run.sent;
    match run.result
    case Refused => !req.hasKey && sent == []
    case Errored => sent != [] && |sent| <= 2 + MAX_ROUNDS && AllPlain(sent[..|sent| - 1]) &&
                    (if sent[|sent| - 1].stream then req.stream && script.finalStream.None?
                     else |sent| == 1 && !Readable(script.first))
    case StreamedDirectly(tokens) => req.stream && req.Tools() == [] && |sent| == 1 && sent[0].stream &&
                                     script.finalStream == Some(tokens)
    case Answered(_, tokens, _, _, timing) =>
      !req.stream && AllPlain(sent) && Reported(script, |sent|, timing.iterations, tokens)
    case Streamed(tokens, _, _, _, _, iterations, _) =>
      && req.stream && sent != [] && AllPlain(sent[..|sent| - 1])
      && sent[|sent| - 1].stream && sent[|sent| - 1].choice == Auto
      && script.finalStream.Some?
      && exists used :: Reported(script, |sent| - 1, iterations, used) && tokens == used.Plus(script.finalStream.value)
  }

  lemma {:induction false} FirstCallsComplete(script: Script, n: nat)
    requires forall i :: 0 <= i <= n ==> AnswerOf(script, i).Some?
    ensures Completed(script, n) == n + 1
  {
    if n == 0 {
    } else {
      FirstCallsComplete(script, n - 1);
    }
  }

  /** What the last call adds to the completed calls and to their tokens, if it is not readable. */
  lemma {:induction false} LastCallAdds(script: Script, k: nat)
    requires !Readable(AnswerOf(script, k + 1))
    ensures Completed(script, k + 1) == Completed(script, k) + (if AnswerOf(script, k + 1).Some? then 1 else 0)
    ensures UsageUpTo(script, k + 1) == UsageUpTo(script, k) <==> Weightless(UsageTokens(ReplyAt(script, k + 1).usage))
    ensures AnswerOf(script, k + 1).None? ==> Weightless(UsageTokens(ReplyAt(script, k + 1).usage))
  {
  }

  lemma {:induction false} RunReported(script: Script, n: nat, plainCalls: nat)
    requires n <= MAX_ROUNDS && (forall i :: 0 <= i <= n ==> Readable(AnswerOf(script, i)))
    requires plainCalls == n + 1 || (plainCalls == n + 2 <= 1 + MAX_ROUNDS && !Readable(AnswerOf(script, n + 1)))
    ensures Reported(script, plainCalls, n + 1, UsageUpTo(script, n))
  {
    FirstCallsComplete(script, n);
    if plainCalls == n + 2 {
      LastCallAdds(script, n);
    }
  }

  lemma {:induction false} CallsAnswered(req: Request, script: Script, n: nat)
    requires Readable(script.first) && WentOnUntil(req, script, n)
    ensures forall i :: 0 <= i <= n ==> Readable(AnswerOf(script, i))
  {
    forall i | 0 <= i <= n ensures Readable(AnswerOf(script, i)) {
      if i > 0 {
        WentOnReadably(req, script, i - 1);
      }
    }
  }

  lemma {:induction false} WentOnReadably(req: Request, script: Script, k: nat)
    requires WhyLeft(req, script, k).None?
    ensures Readable(script.rounds(k).answer)
  {
  }

  lemma {:induction false} LastCallUnread(req: Request, script: Script, n: nat, why: Stop)
    requires WhyLeft(req, script, n) == Some(why) && why.AfterCall()
    ensures n < MAX_ROUNDS && !Readable(script.rounds(n).answer)
  {
  }

  lemma {:induction false} ExitReported(req: Request, script: Script, exit: Exit)
    requires WentOnUntil(req, script, exit.state.loopIndex) && ExitReason(req, script, exit) && SentLaw(req, script, exit)
    requires exit.state.budget == UsageUpTo(script, exit.state.loopIndex) && Readable(script.first)
    ensures Reported(script, |exit.state.sent|, exit.state.loopIndex + 1, exit.state.budget)
  {
    var n := exit.state.loopIndex;
    CallsAnswered(req, script, n);
    if exit.why.AfterCall() {
      LastCallUnread(req, script, n, exit.why);
    }
    RunReported(script, n, |exit.state.sent|);
  }

  lemma {:induction false} ExitSentPlain(req: Request, script: Script, exit: Exit)
    requires ExitIs(req, script, exit)
    ensures AllPlain(exit.state.sent) && 1 <= |exit.state.sent| <= 1 + MAX_ROUNDS
  {
    BodiesSent(req, script, exit);
  }

  /** What a final state needs for its result to be reported rightly. */
  ghost predicate Reportable(script: Script, s: Loop) {
    AllPlain(s.sent) && Reported(script, |s.sent|, s.loopIndex + 1, s.budget)
  }

  lemma {:induction false} ExitReportable(req: Request, script: Script, exit: Exit)
    requires ExitIs(req, script, exit) && Readable(script.first)
    ensures Reportable(script, exit.state)
  {
    BodiesSent(req, script, exit);
    ExitReported(req, script, exit);
    ExitSentPlain(req, script, exit);
  }

  lemma {:induction false} FinishReports(req: Request, script: Script, s: Loop)
    requires Reportable(script, s)
    ensures ReportLaw(req, script, Finish(req, script, s))
  {
    var sent := Finish(req, script, s).sent;
    if req.stream {
      assert sent[..|sent| - 1] == s.sent;
    }
  }

  lemma {:induction false} EveryReport(req: Request, script: Script)
    ensures ReportLaw(req, script, Execute(req, script))
  {
    if req.hasKey && !(req.stream && req.Tools() == []) && Readable(script.first) {
      EveryExitIs(req, script);
      ExitReportable(req, script, TheExit(req, script));
      FinishReports(req, script, TheExit(req, script).state);
    }
  }

  function Iterations(result: Result): nat {
    match result
    case Answered(_, _, _, _, timing) => timing.iterations
    case Streamed(_, _, _, _, _, iterations, _) => iterations
    case _ => 0
  }

  ghost predicate TokensAddUp(result: Result) {
    result.Answered? || result.Streamed? || result.StreamedDirectly? ==>
      result.tokens.total == result.tokens.input + result.tokens.output
  }

  /** If the usage of every counted reply and of the stream adds up, so do the reported tokens. */
  lemma {:induction false} EveryReportAddsUp(req: Request, script: Script)
    requires forall i :: 0 <= i < Iterations(Execute(req, script).result) ==> AddsUp(script, i)
    requires script.finalStream.Some? ==> var t := script.finalStream.value; t.total == t.input + t.output
    ensures TokensAddUp(Execute(req, script).result)
  {
    EveryReport(req, script);
    ReportAddsUp(req, script, Execute(req, script));
  }

  lemma {:induction false} ReportAddsUp(req: Request, script: Script, run: Execution)
    requires ReportLaw(req, script, run)
    requires forall i :: 0 <= i < Iterations(run.result) ==> AddsUp(script, i)
    requires script.finalStream.Some? ==> var t := script.finalStream.value; t.total == t.input + t.output
    ensures TokensAddUp(run.result)
  {
    if run.result.Answered? || run.result.Streamed? {
      SumAddsUp(script, Iterations(run.result) - 1);
    }
  }

  /** The ledgers and times that a result reports after tool rounds. */
  ghost predicate ResultLaw(script: Script, result: Result) {
    match result
    case Answered(_, _, toolCalls, toolResults, t) =>
      && TraceMatches(t.segments, toolCalls) && OutputsMatch(toolResults, toolCalls)
      && t.firstResponse == script.firstEnd - script.callT0 && t.duration == script.tEnd - script.t0
      && (ClockNeverStepsBack(script) ==>
            t.modelTime + t.toolsTime <= t.duration && ModelTime(t.segments) == t.modelTime && ModelApart(t.segments))
    case Streamed(_, toolCalls, modelTime, _, firstResponse, _, segments) =>
      && TraceMatches(segments, toolCalls) && firstResponse == script.firstEnd - script.callT0
      && (ClockNeverStepsBack(script) ==> ModelTime(segments) == modelTime && ModelApart(segments))
    case _ => true
  }

  lemma {:induction false} EveryResult(req: Request, script: Script)
    ensures ResultLaw(script, Execute(req, script).result)
  {
    if req.hasKey && !(req.stream && req.Tools() == []) && Readable(script.first) {
      EveryExitIs(req, script);
      ResultOfExit(req, script, TheExit(req, script));
    }
  }

  lemma {:induction false} ResultOfExit(req: Request, script: Script, exit: Exit)
    requires ExitIs(req, script, exit)
    ensures ResultLaw(script, Finish(req, script, exit.state).result)
  {
    LedgersAgree(req, script, exit);
    if ClockNeverStepsBack(script) {
      TimesFit(req, script, exit);
    }
  }
}
