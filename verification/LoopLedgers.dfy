/** The parallel ledgers of a run agree with each other, and its clock readings fit together. */
module LoopLedgers {
  import opened Prelude
  import opened Chat
  import opened ToolBatch
  import opened ToolChoice
  import opened ToolLoop
  import opened LoopProperties

  // ---------- Agreement of the ledgers ----------

  function ToolUseOnly(seg: Segment): Option<Segment> {
    if seg.kind.ToolUse? then Some(seg) else None
  }

  function SuccessResult(e: Entry): Option<Payload> {
    if e.success then Some(e.result) else None
  }

  function TurnPayload(m: Message): Option<Payload> {
    if m.ToolTurn? then Some(m.payload) else None
  }

  function OutputPayload(o: Output): Payload {
    match o
    case Undefined => EmptyObject
    case Value(json) => Passed(json)
  }

  function SegmentsOf(gathered: seq<Entry>): (r: seq<Segment>)
    ensures |r| == |gathered|
  {
    seq(|gathered|, i requires 0 <= i < |gathered| =>
      Segment(ToolUse, ToolName(gathered[i].name), gathered[i].start, gathered[i].end, gathered[i].duration))
  }

  function Results(gathered: seq<Entry>): (r: seq<Payload>)
    ensures |r| == |gathered|
  {
    seq(|gathered|, i requires 0 <= i < |gathered| => gathered[i].result)
  }

  function OutputPayloads(outputs: seq<Output>): (r: seq<Payload>)
    ensures |r| == |outputs|
  {
    seq(|outputs|, i requires 0 <= i < |outputs| => OutputPayload(outputs[i]))
  }

  /**
    The tool segments of the trace are the gathered entries one for one; the outputs are those of the
    successful entries; the appended tool turns carry the results of the entries, and only a run cut
    by an unserialisable payload lacks the last one.
    */
  ghost predicate LedgerLaw(req: Request, exit: Exit) {
    var s := exit.state;
    && TraceMatches(s.trace, s.gathered)
    && OutputsMatch(s.outputs, s.gathered)
    && TurnsMatchAtExit(req.InitialHistory(), exit)
  }

  function MissingTurns(why: Stop): nat {
    if why == SerialiseFault then 1 else 0
  }

  ghost predicate TraceMatches(trace: seq<Segment>, gathered: seq<Entry>) {
    Pick(trace, ToolUseOnly) == SegmentsOf(gathered)
  }

  ghost predicate OutputsMatch(outputs: seq<Output>, gathered: seq<Entry>) {
    OutputPayloads(outputs) == Pick(gathered, SuccessResult)
  }

  ghost predicate TurnsMatch(initial: seq<Message>, history: seq<Message>, gathered: seq<Entry>) {
    Pick(history, TurnPayload) == Pick(initial, TurnPayload) + Results(gathered)
  }

  lemma {:induction false} SegmentsAgree(recs: seq<Invocation>)
    ensures Pick(ToolSegments(recs), ToolUseOnly) == ToolSegments(recs) == SegmentsOf(Entries(recs))
  {
    PickAll(ToolSegments(recs), ToolUseOnly, ToolSegments(recs));
  }

  lemma {:induction false} TurnsAgree(recs: seq<Invocation>)
    ensures Pick(Turns(recs), TurnPayload) == Results(Entries(recs))
  {
    PickAll(Turns(recs), TurnPayload, Results(Entries(recs)));
  }

  lemma {:induction false} SegmentsConcat(a: seq<Entry>, b: seq<Entry>)
    ensures SegmentsOf(a + b) == SegmentsOf(a) + SegmentsOf(b)
  {
  }

  lemma {:induction false} RecordOutputsAgree(recs: seq<Invocation>)
    ensures OutputPayloads(Outputs(recs)) == Pick(Entries(recs), SuccessResult)
  {
    if recs == [] {
      PickNothing(Entries(recs), SuccessResult);
    } else {
      var n := |recs| - 1;
      RecordOutputsAgree(recs[..n]);
      assert Entries(recs)[..n] == Entries(recs[..n]);
      assert SuccessResult(Entries(recs)[n]) ==
             if recs[n].outcome.success then Some(OutputPayload(recs[n].outcome.output)) else None;
    }
  }

  /** Adding the records of a batch to all ledgers keeps them in agreement. */
  lemma {:induction false} TraceGrows(trace: seq<Segment>, gathered: seq<Entry>, recs: seq<Invocation>)
    requires TraceMatches(trace, gathered)
    ensures TraceMatches(trace + ToolSegments(recs), gathered + Entries(recs))
  {
    SegmentsAgree(recs);
    PickConcat(trace, ToolSegments(recs), ToolUseOnly);
    SegmentsConcat(gathered, Entries(recs));
  }

  lemma {:induction false} TraceGainsModel(trace: seq<Segment>, gathered: seq<Entry>, answer: Segment)
    requires TraceMatches(trace, gathered) && answer.kind.Model?
    ensures TraceMatches(trace + [answer], gathered)
  {
    PickNothing([answer], ToolUseOnly);
    PickConcat(trace, [answer], ToolUseOnly);
  }

  lemma {:induction false} OutputPayloadsConcat(a: seq<Output>, b: seq<Output>)
    ensures OutputPayloads(a + b) == OutputPayloads(a) + OutputPayloads(b)
  {
  }

  lemma {:induction false} OutputsGrow(outputs: seq<Output>, gathered: seq<Entry>, recs: seq<Invocation>)
    requires OutputsMatch(outputs, gathered)
    ensures OutputsMatch(outputs + Outputs(recs), gathered + Entries(recs))
  {
    RecordOutputsAgree(recs);
    PickConcat(gathered, Entries(recs), SuccessResult);
    OutputPayloadsConcat(outputs, Outputs(recs));
  }

  lemma {:induction false} RoundPayloads(calls: seq<ToolCall>, recs: seq<Invocation>)
    ensures Pick([AssistantTurn(calls)] + Turns(recs), TurnPayload) == Results(Entries(recs))
  {
    TurnsAgree(recs);
    PickNothing([AssistantTurn(calls)], TurnPayload);
    PickConcat([AssistantTurn(calls)], Turns(recs), TurnPayload);
  }

  lemma {:induction false} ResultsConcat(a: seq<Entry>, b: seq<Entry>)
    ensures Results(a + b) == Results(a) + Results(b)
  {
  }

  lemma {:induction false} TurnsGrow(initial: seq<Message>, history: seq<Message>, gathered: seq<Entry>,
                                     round: seq<Message>, recs: seq<Invocation>)
    requires TurnsMatch(initial, history, gathered) && Pick(round, TurnPayload) == Results(Entries(recs))
    ensures TurnsMatch(initial, history + round, gathered + Entries(recs))
  {
    PickConcat(history, round, TurnPayload);
    ResultsConcat(gathered, Entries(recs));
  }

  lemma {:induction false} TraceAgrees(req: Request, script: Script, k: nat)
    ensures TraceMatches(TraceUpTo(req, script, k), EntriesUpTo(req, script, k))
  {
    if k == 0 {
      PickNothing(TraceUpTo(req, script, 0), ToolUseOnly);
    } else {
      var trace, recs := TraceUpTo(req, script, k - 1), RoundRecords(req, script, k - 1);
      TraceAgrees(req, script, k - 1);
      TraceGrows(trace, EntriesUpTo(req, script, k - 1), recs);
      TraceGainsModel(trace + ToolSegments(recs), EntriesUpTo(req, script, k), RoundSegment(script, k - 1));
    }
  }

  lemma {:induction false} OutputsAgree(req: Request, script: Script, k: nat)
    ensures OutputsMatch(OutputsUpTo(req, script, k), EntriesUpTo(req, script, k))
  {
    if k == 0 {
    } else {
      OutputsAgree(req, script, k - 1);
      OutputsGrow(OutputsUpTo(req, script, k - 1), EntriesUpTo(req, script, k - 1), RoundRecords(req, script, k - 1));
    }
  }

  lemma {:induction false} HistoryAgrees(req: Request, script: Script, k: nat)
    ensures TurnsMatch(req.InitialHistory(), HistoryUpTo(req, script, k), EntriesUpTo(req, script, k))
  {
    var i := 0;
    InitialAgrees(req, script);
    while i < k
      invariant i <= k && TurnsMatch(req.InitialHistory(), HistoryUpTo(req, script, i), EntriesUpTo(req, script, i))
    {
      HistoryAgreesNext(req, script, i);
      i := i + 1;
    }
  }

  lemma {:induction false} InitialAgrees(req: Request, script: Script)
    ensures TurnsMatch(req.InitialHistory(), HistoryUpTo(req, script, 0), EntriesUpTo(req, script, 0))
  {
    assert Results([]) == [];
  }

  lemma {:induction false} HistoryAgreesNext(req: Request, script: Script, k: nat)
    requires TurnsMatch(req.InitialHistory(), HistoryUpTo(req, script, k), EntriesUpTo(req, script, k))
    ensures TurnsMatch(req.InitialHistory(), HistoryUpTo(req, script, k + 1), EntriesUpTo(req, script, k + 1))
  {
    var recs, round := RoundRecords(req, script, k), WholeRound(req, script, k);
    RoundPayloads(Calls(script, k), recs);
    TurnsGrow(req.InitialHistory(), HistoryUpTo(req, script, k), EntriesUpTo(req, script, k), round, recs);
    HistoryStep(req, script, k);
  }

  lemma {:induction false} CauseOfCut(req: Request, script: Script, exit: Exit)
    requires ExitReason(req, script, exit) && exit.why.AfterTurn()
    ensures CutCause(RoundRecords(req, script, exit.state.loopIndex), exit.why)
  {
  }

  /** The messages and the entries of a last round that was cut. */
  lemma {:induction false} CutAgrees(calls: seq<ToolCall>, recs: seq<Invocation>, why: Stop)
    requires CutCause(recs, why)
    ensures var kept := Kept(why, recs) - MissingTurns(why);
            && kept >= 0
            && ([AssistantTurn(calls)] + Turns(recs))[..CutLength(why, recs)] == [AssistantTurn(calls)] + Turns(recs[..kept])
            && Entries(recs[..Kept(why, recs)])[..kept] == Entries(recs[..kept])
  {
  }

  lemma {:induction false} DropLast(a: seq<Entry>, b: seq<Entry>, m: nat)
    requires m <= |b|
    ensures (a + b)[..|a + b| - m] == a + b[..|b| - m]
  {
  }

  /** A last round that was cut, after a history and entries that agree. */
  lemma {:induction false} CutTurnsMatch(initial: seq<Message>, history: seq<Message>, gathered: seq<Entry>,
                                         calls: seq<ToolCall>, recs: seq<Invocation>, exit: Exit)
    requires TurnsMatch(initial, history, gathered)
    requires CutCause(recs, exit.why)
    requires exit.state.history == history + ([AssistantTurn(calls)] + Turns(recs))[..CutLength(exit.why, recs)]
    requires exit.state.gathered == gathered + Entries(recs[..Kept(exit.why, recs)])
    ensures TurnsMatchAtExit(initial, exit)
  {
    var turned := CutToTurned(history, gathered, calls, recs, exit);
    RoundPayloads(calls, turned);
    TurnsGrow(initial, history, gathered, [AssistantTurn(calls)] + Turns(turned), turned);
  }

  /** The records of a cut round that got their turn. */
  lemma {:induction false} CutToTurned(history: seq<Message>, gathered: seq<Entry>, calls: seq<ToolCall>,
                                       recs: seq<Invocation>, exit: Exit)
    returns (turned: seq<Invocation>)
    requires CutCause(recs, exit.why)
    requires exit.state.history == history + ([AssistantTurn(calls)] + Turns(recs))[..CutLength(exit.why, recs)]
    requires exit.state.gathered == gathered + Entries(recs[..Kept(exit.why, recs)])
    ensures exit.state.history == history + ([AssistantTurn(calls)] + Turns(turned))
    ensures |exit.state.gathered| >= MissingTurns(exit.why)
    ensures exit.state.gathered[..|exit.state.gathered| - MissingTurns(exit.why)] == gathered + Entries(turned)
  {
    turned := recs[..Kept(exit.why, recs) - MissingTurns(exit.why)];
    CutAgrees(calls, recs, exit.why);
    DropLast(gathered, Entries(recs[..Kept(exit.why, recs)]), MissingTurns(exit.why));
  }

  ghost predicate TurnsMatchAtExit(initial: seq<Message>, exit: Exit) {
    && |exit.state.gathered| >= MissingTurns(exit.why)
    && TurnsMatch(initial, exit.state.history,
                  exit.state.gathered[..|exit.state.gathered| - MissingTurns(exit.why)])
  }

  lemma {:induction false} CutTurnsAgree(req: Request, script: Script, exit: Exit)
    requires exit.why.AfterTurn()
    requires CutCause(RoundRecords(req, script, exit.state.loopIndex), exit.why)
    requires ExitHistory(req, script, exit) && ExitGathered(req, script, exit)
    ensures TurnsMatchAtExit(req.InitialHistory(), exit)
  {
    var n := exit.state.loopIndex;
    HistoryAgrees(req, script, n);
    CutTurnsMatch(req.InitialHistory(), HistoryUpTo(req, script, n), EntriesUpTo(req, script, n), Calls(script, n),
                  RoundRecords(req, script, n), exit);
  }

  lemma {:induction false} UncutTurnsAgree(req: Request, script: Script, exit: Exit)
    requires !exit.why.AfterTurn()
    requires ExitHistory(req, script, exit) && ExitGathered(req, script, exit)
    ensures TurnsMatchAtExit(req.InitialHistory(), exit)
  {
    var n := exit.state.loopIndex;
    HistoryAgrees(req, script, n);
    NothingKept(req, script, exit);
  }

  lemma {:induction false} NothingKept(req: Request, script: Script, exit: Exit)
    requires !exit.why.AfterTurn()
    requires ExitHistory(req, script, exit) && ExitGathered(req, script, exit)
    ensures exit.state.gathered == EntriesUpTo(req, script, exit.state.loopIndex)
    ensures exit.state.history == HistoryUpTo(req, script, exit.state.loopIndex)
    ensures exit.state.gathered[..|exit.state.gathered|] == exit.state.gathered && MissingTurns(exit.why) == 0
  {
    assert Entries([]) == [];
    assert WholeRound(req, script, exit.state.loopIndex)[..0] == [];
  }

  lemma {:induction false} TraceAgreesAtExit(req: Request, script: Script, exit: Exit)
    requires ExitGathered(req, script, exit) && ExitTrace(req, script, exit)
    ensures TraceMatches(exit.state.trace, exit.state.gathered)
  {
    var n, kept := exit.state.loopIndex, KeptRecords(req, script, exit);
    var late := LateSegments(ChoiceAt(PrepareTools(req), script, n + 1), n, script.rounds(n), exit.why);
    var before := TraceUpTo(req, script, n) + ToolSegments(kept);
    TraceAgrees(req, script, n);
    TraceGrows(TraceUpTo(req, script, n), EntriesUpTo(req, script, n), kept);
    if late == [] {
      assert before + late == before;
    } else {
      TraceGainsModel(before, exit.state.gathered, late[0]);
    }
  }

  lemma {:induction false} LedgersAgree(req: Request, script: Script, exit: Exit)
    requires ExitIs(req, script, exit)
    ensures LedgerLaw(req, exit)
  {
    var n, kept := exit.state.loopIndex, KeptRecords(req, script, exit);
    TraceAgreesAtExit(req, script, exit);
    OutputsAgree(req, script, n);
    OutputsGrow(OutputsUpTo(req, script, n), EntriesUpTo(req, script, n), kept);
    if exit.why.AfterTurn() {
      CauseOfCut(req, script, exit);
      CutTurnsAgree(req, script, exit);
    } else {
      UncutTurnsAgree(req, script, exit);
    }
  }

  // ---------- The clock ----------

  ghost predicate RoundClock(env: RoundScript) {
    && env.batchT0 <= env.batchEnd <= env.modelT0 <= env.modelEnd
    && forall i: nat :: env.batchT0 <= env.runs(i).began <= env.runs(i).finished <= env.batchEnd
  }

  /**
    The clock never steps back. Readings of rounds that a run does not reach are not part of the run;
    they stand for readings that could still be made before tEnd.
    */
  ghost predicate ClockNeverStepsBack(script: Script) {
    && script.t0 <= script.callT0 <= script.firstEnd <= script.rounds(0).batchT0
    && (forall k: nat :: RoundClock(script.rounds(k)))
    && (forall k: nat :: script.rounds(k).modelEnd <= script.rounds(k + 1).batchT0)
    && (forall k: nat :: script.rounds(k).modelEnd <= script.tEnd)
  }

  /** The reading at which head k is reached. */
  function ClockAt(script: Script, k: nat): int {
    if k == 0 then script.firstEnd else script.rounds(k - 1).modelEnd
  }

  ghost predicate Within(trace: seq<Segment>, lo: int, hi: int) {
    forall i :: 0 <= i < |trace| ==> lo <= trace[i].start <= trace[i].end <= hi
  }

  /** A model segment overlaps nothing: what stands before it has ended, what stands after starts later. */
  ghost predicate ModelApart(trace: seq<Segment>) {
    forall i, j :: 0 <= i < j < |trace| && (trace[i].kind.Model? || trace[j].kind.Model?) ==> trace[i].end <= trace[j].start
  }

  function ModelTime(trace: seq<Segment>): int {
    if trace == [] then 0
    else ModelTime(trace[..|trace| - 1]) + (if trace[|trace| - 1].kind.Model? then trace[|trace| - 1].duration else 0)
  }

  lemma {:induction false} ModelTimeConcat(a: seq<Segment>, b: seq<Segment>)
    ensures ModelTime(a + b) == ModelTime(a) + ModelTime(b)
  {
    if b == [] {
      assert a + b == a;
    } else {
      assert (a + b)[..|a + b| - 1] == a + b[..|b| - 1];
      ModelTimeConcat(a, b[..|b| - 1]);
    }
  }

  lemma {:induction false} ToolsTakeNoModelTime(recs: seq<Invocation>)
    ensures ModelTime(ToolSegments(recs)) == 0
  {
    if recs == [] {
    } else {
      ToolsTakeNoModelTime(recs[..|recs| - 1]);
      assert ToolSegments(recs)[..|recs| - 1] == ToolSegments(recs[..|recs| - 1]);
    }
  }

  lemma {:induction false} ApartConcat(a: seq<Segment>, b: seq<Segment>, lo: int, mid: int, hi: int)
    requires Within(a, lo, mid) && Within(b, mid, hi) && lo <= mid <= hi
    requires ModelApart(a) && ModelApart(b)
    ensures Within(a + b, lo, hi) && ModelApart(a + b)
  {
  }

  lemma {:induction false} BatchWithin(req: Request, script: Script, k: nat, m: nat)
    requires ClockNeverStepsBack(script) && m <= |RoundRecords(req, script, k)|
    ensures Within(ToolSegments(RoundRecords(req, script, k)[..m]), script.rounds(k).batchT0, script.rounds(k).batchEnd)
    ensures ModelApart(ToolSegments(RoundRecords(req, script, k)[..m]))
  {
    var env, recs, at := script.rounds(k), RoundRecords(req, script, k), Positions(req, Calls(script, k));
    assert RoundClock(env);
    RecordsHoldTheirRuns(req, Calls(script, k), env.runs);
    forall j | 0 <= j < m
      ensures env.batchT0 <= recs[j].began <= recs[j].finished <= env.batchEnd
    {
      assert RecordLaw(req, Calls(script, k)[at[j]], env.runs(at[j]), recs[j]);
      assert env.batchT0 <= env.runs(at[j]).began <= env.runs(at[j]).finished <= env.batchEnd;
    }
  }

  ghost predicate TracePlaced(req: Request, script: Script, k: nat) {
    && Within(TraceUpTo(req, script, k), script.t0, ClockAt(script, k))
    && ModelApart(TraceUpTo(req, script, k))
    && ModelTime(TraceUpTo(req, script, k)) == WallModelUpTo(script, k)
  }

  lemma {:induction false} HeadReadings(script: Script, k: nat)
    requires ClockNeverStepsBack(script)
    ensures script.t0 <= ClockAt(script, k) <= script.rounds(k).batchT0
    ensures WallModelUpTo(script, k) + WallToolUpTo(script, k) <= ClockAt(script, k) - script.t0
  {
    if k == 0 {
    } else {
      HeadReadings(script, k - 1);
      assert RoundClock(script.rounds(k - 1));
      assert script.rounds(k - 1).modelEnd <= script.rounds(k - 1 + 1).batchT0;
    }
  }

  lemma {:induction false} HeadClock(req: Request, script: Script, k: nat)
    requires ClockNeverStepsBack(script)
    ensures TracePlaced(req, script, k)
  {
    if k == 0 {
      assert TraceUpTo(req, script, 0)[..0] == [];
    } else {
      HeadClock(req, script, k - 1);
      HeadReadings(script, k - 1);
      assert RoundClock(script.rounds(k - 1));
      AddRound(req, script, k - 1);
    }
  }

  lemma {:induction false} AddRound(req: Request, script: Script, k: nat)
    requires ClockNeverStepsBack(script) && RoundClock(script.rounds(k))
    requires script.t0 <= ClockAt(script, k) <= script.rounds(k).batchT0
    requires Within(TraceUpTo(req, script, k), script.t0, ClockAt(script, k)) && ModelApart(TraceUpTo(req, script, k))
    ensures Within(TraceUpTo(req, script, k + 1), script.t0, script.rounds(k).modelEnd)
    ensures ModelApart(TraceUpTo(req, script, k + 1))
    ensures ModelTime(TraceUpTo(req, script, k + 1)) ==
            ModelTime(TraceUpTo(req, script, k)) + (script.rounds(k).modelEnd - script.rounds(k).modelT0)
  {
    var env, recs, before := script.rounds(k), RoundRecords(req, script, k), TraceUpTo(req, script, k);
    assert recs[..|recs|] == recs;
    BatchWithin(req, script, k, |recs|);
    ApartConcat(before, ToolSegments(recs), script.t0, env.batchT0, env.batchEnd);
    var answer := [RoundSegment(script, k)];
    ApartConcat(before + ToolSegments(recs), answer, script.t0, env.modelT0, env.modelEnd);
    ModelTimeConcat(before, ToolSegments(recs));
    ToolsTakeNoModelTime(recs);
    ModelTimeConcat(before + ToolSegments(recs), answer);
    assert answer[..0] == [];
  }

  /**
    Model and tool wall time fit into the duration, the model wall time is the sum of the model
    segments, and no tool segment overlaps a model segment, also after a swallowed exception.
    */
  ghost predicate TimeLaw(script: Script, exit: Exit) {
    var s := exit.state;
    && s.wallModel + s.wallTool <= script.tEnd - script.t0
    && ModelTime(s.trace) == s.wallModel
    && Within(s.trace, script.t0, script.tEnd)
    && ModelApart(s.trace)
  }

  /** The trace of an exit without what an unreadable last reply leaves in it. */
  function TraceBeforeReply(req: Request, script: Script, exit: Exit): seq<Segment> {
    TraceUpTo(req, script, exit.state.loopIndex) + ToolSegments(KeptRecords(req, script, exit))
  }

  lemma {:induction false} BeforeReplyPlaced(req: Request, script: Script, exit: Exit)
    requires ClockNeverStepsBack(script)
    ensures var n, trace := exit.state.loopIndex, TraceBeforeReply(req, script, exit);
            && Within(trace, script.t0, script.rounds(n).batchEnd) && ModelApart(trace)
            && ModelTime(trace) == WallModelUpTo(script, n)
  {
    var n := exit.state.loopIndex;
    var env, recs := script.rounds(n), RoundRecords(req, script, n);
    var kept := Kept(exit.why, recs);
    HeadClock(req, script, n);
    HeadReadings(script, n);
    assert RoundClock(env);
    BatchWithin(req, script, n, kept);
    ApartConcat(TraceUpTo(req, script, n), ToolSegments(recs[..kept]), script.t0, env.batchT0, env.batchEnd);
    ModelTimeConcat(TraceUpTo(req, script, n), ToolSegments(recs[..kept]));
    ToolsTakeNoModelTime(recs[..kept]);
  }

  lemma {:induction false} LateSegmentPlaced(trace: seq<Segment>, script: Script, choice: Choice, n: nat, why: Stop)
    requires ClockNeverStepsBack(script)
    requires Within(trace, script.t0, script.rounds(n).batchEnd) && ModelApart(trace) && script.t0 <= script.rounds(n).batchEnd
    ensures var env := script.rounds(n);
            var late := LateSegments(choice, n, env, why);
            && Within(trace + late, script.t0, env.modelEnd) && ModelApart(trace + late)
            && ModelTime(trace + late) == ModelTime(trace) + LateTime(choice, env, why)
  {
    var env := script.rounds(n);
    var late := LateSegments(choice, n, env, why);
    assert RoundClock(env);
    if late == [] {
      assert trace + late == trace;
    } else {
      assert late[..0] == [];
      ModelTimeConcat(trace, late);
      ApartConcat(trace, late, script.t0, env.modelT0, env.modelEnd);
    }
  }

  lemma {:induction false} TimesFit(req: Request, script: Script, exit: Exit)
    requires ExitIs(req, script, exit) && ClockNeverStepsBack(script)
    ensures TimeLaw(script, exit)
  {
    var n := exit.state.loopIndex;
    assert RoundClock(script.rounds(n));
    HeadReadings(script, n);
    BeforeReplyPlaced(req, script, exit);
    LateSegmentPlaced(TraceBeforeReply(req, script, exit), script, ChoiceAt(PrepareTools(req), script, n + 1), n, exit.why);
    assert script.rounds(n).modelEnd <= script.tEnd;
  }

  /** How many model calls a trace shows. */
  function ModelCalls(trace: seq<Segment>): nat {
    if trace == [] then 0
    else ModelCalls(trace[..|trace| - 1]) + (if trace[|trace| - 1].kind.Model? then 1 else 0)
  }

  lemma {:induction false} ModelCallsConcat(a: seq<Segment>, b: seq<Segment>)
    ensures ModelCalls(a + b) == ModelCalls(a) + ModelCalls(b)
  {
    if b == [] {
      assert a + b == a;
    } else {
      assert (a + b)[..|a + b| - 1] == a + b[..|b| - 1];
      ModelCallsConcat(a, b[..|b| - 1]);
    }
  }

  lemma {:induction false} ToolsAreNoModelCalls(recs: seq<Invocation>, m: nat)
    requires m <= |recs|
    ensures ModelCalls(ToolSegments(recs)[..m]) == 0
  {
    if m == 0 {
    } else {
      ToolsAreNoModelCalls(recs, m - 1);
      assert ToolSegments(recs)[..m][..m - 1] == ToolSegments(recs)[..m - 1];
    }
  }

  lemma {:induction false} RoundAddsACall(before: seq<Segment>, recs: seq<Invocation>, answer: Segment)
    requires answer.kind.Model?
    ensures ModelCalls(before + ToolSegments(recs) + [answer]) == ModelCalls(before) + 1
  {
    ToolsAreNoModelCalls(recs, |recs|);
    assert ToolSegments(recs)[..|recs|] == ToolSegments(recs);
    ModelCallsConcat(before, ToolSegments(recs));
    assert (before + ToolSegments(recs) + [answer])[..|before| + |recs|] == before + ToolSegments(recs);
  }

  lemma {:induction false} TraceAfter(req: Request, script: Script, k: nat)
    ensures TraceUpTo(req, script, k + 1) ==
            TraceUpTo(req, script, k) + ToolSegments(RoundRecords(req, script, k)) + [RoundSegment(script, k)]
    ensures RoundSegment(script, k).kind.Model?
  {
  }

  lemma {:induction false} FirstCall(req: Request, script: Script)
    ensures ModelCalls(TraceUpTo(req, script, 0)) == 1
  {
    assert TraceUpTo(req, script, 0)[..0] == [];
  }

  lemma {:induction false} ModelCallsUpTo(req: Request, script: Script, k: nat)
    ensures ModelCalls(TraceUpTo(req, script, k)) == k + 1
  {
    if k == 0 {
      FirstCall(req, script);
    } else {
      ModelCallsUpTo(req, script, k - 1);
      NextCall(req, script, k - 1);
    }
  }

  lemma {:induction false} NextCall(req: Request, script: Script, k: nat)
    ensures ModelCalls(TraceUpTo(req, script, k + 1)) == ModelCalls(TraceUpTo(req, script, k)) + 1
  {
    TraceAfter(req, script, k);
    RoundAddsACall(TraceUpTo(req, script, k), RoundRecords(req, script, k), RoundSegment(script, k));
  }

  /** The tool segment at i lies inside the batch of its own round: k + 1 model calls stand before round k. */
  ghost predicate InItsBatch(script: Script, trace: seq<Segment>, i: nat)
    requires i < |trace|
  {
    var calls := ModelCalls(trace[..i]);
    calls >= 1 && script.rounds(calls - 1).batchT0 <= trace[i].start <= trace[i].end <= script.rounds(calls - 1).batchEnd
  }

  /** Tools that follow the rounds before add no model call. */
  lemma {:induction false} CallsBefore(before: seq<Segment>, recs: seq<Invocation>, j: nat, trace: seq<Segment>)
    requires j < |recs| && before + ToolSegments(recs) <= trace
    ensures ModelCalls(trace[..|before| + j]) == ModelCalls(before)
    ensures trace[|before| + j] == ToolSegments(recs)[j]
  {
    ToolsAreNoModelCalls(recs, j);
    ModelCallsConcat(before, ToolSegments(recs)[..j]);
    assert trace[..|before| + j] == before + ToolSegments(recs)[..j];
    assert trace[|before| + j] == (before + ToolSegments(recs))[|before| + j];
  }

  lemma {:induction false} SegmentWithin(req: Request, script: Script, k: nat, j: nat)
    requires ClockNeverStepsBack(script) && j < |RoundRecords(req, script, k)|
    ensures var segment := ToolSegments(RoundRecords(req, script, k)[..j + 1])[j];
            script.rounds(k).batchT0 <= segment.start <= segment.end <= script.rounds(k).batchEnd
  {
    BatchWithin(req, script, k, j + 1);
  }

  lemma {:induction false} SegmentInRound(req: Request, script: Script, k: nat, j: nat, trace: seq<Segment>)
    requires ClockNeverStepsBack(script) && j < |RoundRecords(req, script, k)|
    requires TraceUpTo(req, script, k) + ToolSegments(RoundRecords(req, script, k)[..j + 1]) <= trace
    ensures InItsBatch(script, trace, |TraceUpTo(req, script, k)| + j)
  {
    SegmentWithin(req, script, k, j);
    ModelCallsUpTo(req, script, k);
    CallsBefore(TraceUpTo(req, script, k), RoundRecords(req, script, k)[..j + 1], j, trace);
  }

  lemma {:induction false} CutSegments(recs: seq<Invocation>, m: nat, l: nat)
    requires l <= m <= |recs|
    ensures ToolSegments(recs[..l]) <= ToolSegments(recs[..m])
  {
  }

  /** The same, when m records of the round have left their segments. */
  lemma {:induction false} SegmentOfRound(req: Request, script: Script, k: nat, m: nat, j: nat, trace: seq<Segment>)
    requires ClockNeverStepsBack(script) && j < m <= |RoundRecords(req, script, k)|
    requires TraceUpTo(req, script, k) + ToolSegments(RoundRecords(req, script, k)[..m]) <= trace
    ensures InItsBatch(script, trace, |TraceUpTo(req, script, k)| + j)
  {
    CutSegments(RoundRecords(req, script, k), m, j + 1);
    SegmentInRound(req, script, k, j, trace);
  }

  /** A trace that starts with one more round starts with the rounds before it, the tools of that round and its reply. */
  lemma {:induction false} TraceStep(req: Request, script: Script, k: nat, trace: seq<Segment>)
    requires TraceUpTo(req, script, k + 1) <= trace
    ensures var before, recs := TraceUpTo(req, script, k), RoundRecords(req, script, k);
            && before <= trace && before + ToolSegments(recs) <= trace
            && |TraceUpTo(req, script, k + 1)| == |before| + |recs| + 1
            && trace[|before| + |recs|].kind.Model?
  {
    var before, tools := TraceUpTo(req, script, k), ToolSegments(RoundRecords(req, script, k));
    TraceAfter(req, script, k);
    PrefixParts(before, tools, RoundSegment(script, k), trace);
  }

  lemma {:induction false} PrefixParts(a: seq<Segment>, b: seq<Segment>, last: Segment, trace: seq<Segment>)
    requires a + b + [last] <= trace
    ensures a <= trace && a + b <= trace && trace[|a| + |b|] == last
  {
    assert (a + b + [last])[|a| + |b|] == last;
    assert (a + b + [last])[..|a|] == a && (a + b + [last])[..|a| + |b|] == a + b;
  }

  lemma {:induction false} SegmentUpToInItsBatch(req: Request, script: Script, n: nat, i: nat, trace: seq<Segment>)
    requires ClockNeverStepsBack(script) && TraceUpTo(req, script, n) <= trace
    requires i < |TraceUpTo(req, script, n)| && trace[i].kind.ToolUse?
    ensures InItsBatch(script, trace, i)
  {
    if n == 0 {
    } else {
      TraceStep(req, script, n - 1, trace);
      if i < |TraceUpTo(req, script, n - 1)| {
        SegmentUpToInItsBatch(req, script, n - 1, i, trace);
      } else {
        LastRoundSegment(req, script, n - 1, i - |TraceUpTo(req, script, n - 1)|, trace);
      }
    }
  }

  lemma {:induction false} LastRoundSegment(req: Request, script: Script, k: nat, j: nat, trace: seq<Segment>)
    requires ClockNeverStepsBack(script) && j < |RoundRecords(req, script, k)|
    requires TraceUpTo(req, script, k) + ToolSegments(RoundRecords(req, script, k)) <= trace
    ensures InItsBatch(script, trace, |TraceUpTo(req, script, k)| + j)
  {
    var recs := RoundRecords(req, script, k);
    assert recs[..|recs|] == recs;
    SegmentOfRound(req, script, k, |recs|, j, trace);
  }

  lemma {:induction false} LateIsNoTool(trace: seq<Segment>, choice: Choice, n: nat, env: RoundScript, why: Stop, i: nat)
    requires i < |trace + LateSegments(choice, n, env, why)|
    requires (trace + LateSegments(choice, n, env, why))[i].kind.ToolUse?
    ensures i < |trace|
  {
  }

  lemma {:induction false} SegmentAmong(req: Request, script: Script, n: nat, m: nat, i: nat, trace: seq<Segment>)
    requires ClockNeverStepsBack(script) && m <= |RoundRecords(req, script, n)|
    requires TraceUpTo(req, script, n) + ToolSegments(RoundRecords(req, script, n)[..m]) <= trace
    requires i < |TraceUpTo(req, script, n)| + m && trace[i].kind.ToolUse?
    ensures InItsBatch(script, trace, i)
  {
    var before := TraceUpTo(req, script, n);
    if i < |before| {
      assert before <= before + ToolSegments(RoundRecords(req, script, n)[..m]);
      SegmentUpToInItsBatch(req, script, n, i, trace);
    } else {
      SegmentOfRound(req, script, n, m, i - |before|, trace);
    }
  }

  lemma {:induction false} ToolSegmentsInTheirBatches(req: Request, script: Script, exit: Exit, i: nat)
    requires ExitTrace(req, script, exit) && ClockNeverStepsBack(script)
    requires i < |exit.state.trace| && exit.state.trace[i].kind.ToolUse?
    ensures InItsBatch(script, exit.state.trace, i)
  {
    var n := exit.state.loopIndex;
    LateIsNoTool(TraceBeforeReply(req, script, exit), ChoiceAt(PrepareTools(req), script, n + 1), n, script.rounds(n),
                 exit.why, i);
    SegmentAmong(req, script, n, Kept(exit.why, RoundRecords(req, script, n)), i, exit.state.trace);
  }
}
