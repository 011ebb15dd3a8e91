/**
  What a request reports and which messages and choices it sends, told from the request and the outside
  answers alone.
  */
module Reports {
  import opened Prelude
  import opened Chat
  import opened ToolBatch
  import opened ToolChoice
  import opened ToolLoop
  import opened LoopProperties
  import opened Places
  import Text

  // ---------- How far a run gets ----------

  ghost predicate AllFunctions(calls: seq<ToolCall>) {
    forall c :: c in calls ==> c.FunctionCall?
  }

  ghost predicate AllWrite(req: Request, script: Script, places: seq<Place>) {
    AllStand(script, places) &&
    forall j :: 0 <= j < |places| ==> Writes(req, CallAt(script, places[j]), RunAt(script, places[j]))
  }

  /** The tools of reply n are called: it declares calls, each with a function part, and the cap is not reached. */
  ghost predicate Declares(script: Script, n: nat) {
    n < 20 && DeclaredAt(script, n) != [] && AllFunctions(DeclaredAt(script, n))
  }

  /** And all their answers can be written, so the model is asked again. */
  ghost predicate AsksAgain(req: Request, script: Script, n: nat) {
    Declares(script, n) && AllWrite(req, script, RoundPlaces(req, script, n))
  }

  /** And its answer can be read. */
  ghost predicate GoesOn(req: Request, script: Script, n: nat) {
    AsksAgain(req, script, n) && script.rounds(n).answer.Some? && script.rounds(n).answer.value.Reply?
  }

  /** The first m answerable calls of reply n are folded: all, or those up to the first that cannot be written. */
  ghost predicate FoldsUpTo(req: Request, script: Script, n: nat, m: nat) {
    var places := RoundPlaces(req, script, n);
    && m <= |places|
    && (!Declares(script, n) ==> m == 0)
    && (Declares(script, n) ==>
          && (m > 0 ==> AllWrite(req, script, places[..m - 1]))
          && (m < |places| ==> m > 0 && !AllWrite(req, script, places[..m])))
  }

  lemma {:induction false} RecordsWrite(req: Request, script: Script, k: nat)
    ensures var recs, places := RoundRecords(req, script, k), RoundPlaces(req, script, k);
            && |recs| == |places| && AllStand(script, places)
            && forall j :: 0 <= j < |places| ==>
                 (PayloadOf(recs[j]).Serialisable() <==> Writes(req, CallAt(script, places[j]), RunAt(script, places[j])))
  {
    RoundRecordsAt(req, script, k);
    var recs, places := RoundRecords(req, script, k), RoundPlaces(req, script, k);
    forall j | 0 <= j < |places|
      ensures PayloadOf(recs[j]).Serialisable() <==> Writes(req, CallAt(script, places[j]), RunAt(script, places[j]))
    {
      RecordLeaves(req, CallAt(script, places[j]), RunAt(script, places[j]), recs[j]);
    }
  }

  lemma {:induction false} FunctionsIff(calls: seq<ToolCall>)
    ensures AnyBare(calls) <==> !AllFunctions(calls)
  {
    if i :| 0 <= i < |calls| && calls[i].BareCall? {
      assert calls[i] in calls;
    }
  }

  lemma {:induction false} CutWrites(req: Request, script: Script, n: nat, t: nat)
    requires t == CleanPrefix(RoundRecords(req, script, n))
    ensures var places := RoundPlaces(req, script, n);
            && t <= |places| == |RoundRecords(req, script, n)| && AllWrite(req, script, places[..t])
            && (t < |places| ==> !AllWrite(req, script, places[..t + 1]) && !AllWrite(req, script, places))
            && (t == |places| ==> AllWrite(req, script, places))
  {
    RecordsWrite(req, script, n);
    var places := RoundPlaces(req, script, n);
    if t < |places| {
      assert places[..t + 1][t] == places[t];
    }
  }

  /** Why a pass stops, from four facts about it. */
  lemma {:induction false} WhyByParts(req: Request, script: Script, n: nat, writes: bool)
    requires n < MAX_ROUNDS
    requires writes <==> CleanPrefix(RoundRecords(req, script, n)) == |RoundRecords(req, script, n)|
    ensures var calls, answer := Calls(script, n), script.rounds(n).answer;
            WhyLeft(req, script, n) ==
              if calls == [] then Some(NothingPending)
              else if !AllFunctions(calls) then Some(BareCallFault)
              else if !writes then Some(SerialiseFault)
              else if answer.None? then Some(ModelFault)
              else if answer.value.NoChoices? then Some(ReplyFault)
              else None
  {
    FunctionsIff(Calls(script, n));
  }

  /** Why the loop is left, or goes on, told by the calls and their runs. */
  ghost predicate HeadLaw(req: Request, script: Script, n: nat, why: Option<Stop>) {
    && (GoesOn(req, script, n) <==> why.None?)
    && (why.Some? ==> (Declares(script, n) <==> why.value.AfterTurn()))
    && (why.Some? ==> (AsksAgain(req, script, n) <==> why.value.AfterCall()))
    && (why == Some(ReplyFault) <==>
        AsksAgain(req, script, n) && script.rounds(n).answer.Some? && script.rounds(n).answer.value.NoChoices?)
  }

  lemma {:induction false} HeadIs(req: Request, script: Script, n: nat)
    requires n <= MAX_ROUNDS
    ensures HeadLaw(req, script, n, WhyLeft(req, script, n))
  {
    if n < MAX_ROUNDS {
      var writes := AllWrite(req, script, RoundPlaces(req, script, n));
      CutWrites(req, script, n, CleanPrefix(RoundRecords(req, script, n)));
      WhyByParts(req, script, n, writes);
      HeadByParts(req, script, n, writes, WhyLeft(req, script, n));
    }
  }

  lemma {:induction false} HeadByParts(req: Request, script: Script, n: nat, writes: bool, why: Option<Stop>)
    requires n < MAX_ROUNDS && (writes <==> AllWrite(req, script, RoundPlaces(req, script, n)))
    requires var calls, answer := Calls(script, n), script.rounds(n).answer;
             why == if calls == [] then Some(NothingPending)
                    else if !AllFunctions(calls) then Some(BareCallFault)
                    else if !writes then Some(SerialiseFault)
                    else if answer.None? then Some(ModelFault)
                    else if answer.value.NoChoices? then Some(ReplyFault)
                    else None
    ensures HeadLaw(req, script, n, why)
  {
  }

  lemma {:induction false} FirstWrite(req: Request, script: Script, places: seq<Place>, m: nat)
    requires m <= |places| && AllWrite(req, script, places)
    ensures AllWrite(req, script, places[..m])
  {
  }

  lemma {:induction false} KeptIs(req: Request, script: Script, n: nat, why: Stop)
    requires n <= MAX_ROUNDS && WhyLeft(req, script, n) == Some(why)
    ensures var recs := RoundRecords(req, script, n);
            Kept(why, recs) == if !Declares(script, n) then 0
                               else if CleanPrefix(recs) < |recs| then CleanPrefix(recs) + 1 else |recs|
  {
    HeadIs(req, script, n);
  }

  lemma {:induction false} CutIs(req: Request, script: Script, n: nat, why: Stop)
    requires n <= MAX_ROUNDS && WhyLeft(req, script, n) == Some(why)
    ensures FoldsUpTo(req, script, n, Kept(why, RoundRecords(req, script, n)))
  {
    var t := CleanPrefix(RoundRecords(req, script, n));
    KeptIs(req, script, n, why);
    CutWrites(req, script, n, t);
    if t == |RoundPlaces(req, script, n)| && t > 0 {
      FirstWrite(req, script, RoundPlaces(req, script, n), t - 1);
    }
  }

  /** There is only one such number. */
  lemma {:induction false} FoldsOnlyUpTo(req: Request, script: Script, n: nat, m: nat, l: nat)
    requires FoldsUpTo(req, script, n, m) && FoldsUpTo(req, script, n, l)
    ensures m == l
  {
    var places := RoundPlaces(req, script, n);
    if m < l {
      assert places[..l - 1][..m] == places[..m];
      FirstWrite(req, script, places[..l - 1], m);
    } else if l < m {
      assert places[..m - 1][..l] == places[..l];
      FirstWrite(req, script, places[..m - 1], l);
    }
  }

  // ---------- What a run leaves behind ----------

  function BatchTimes(script: Script): nat -> int {
    (k: nat) => script.rounds(k).batchEnd - script.rounds(k).batchT0
  }

  function CallTimes(script: Script): nat -> int {
    (k: nat) => if k == 0 then script.firstEnd - script.callT0 else script.rounds(k - 1).modelEnd - script.rounds(k - 1).modelT0
  }

  function PromptTokens(script: Script): nat -> int {
    (k: nat) => match UsageAt(script, k) case Some(Usage(Some(n), _, _)) => n case _ => 0
  }

  function CompletionTokens(script: Script): nat -> int {
    (k: nat) => match UsageAt(script, k) case Some(Usage(_, Some(n), _)) => n case _ => 0
  }

  function TotalTokens(script: Script): nat -> int {
    (k: nat) => match UsageAt(script, k) case Some(Usage(_, _, Some(n))) => n case _ => 0
  }

  /** The usages of the first n replies, each kind added up for itself. */
  ghost predicate TokensLaw(script: Script, n: nat, used: Tokens) {
    && used.input == Sum(PromptTokens(script), n)
    && used.output == Sum(CompletionTokens(script), n)
    && used.total == Sum(TotalTokens(script), n)
  }

  lemma {:induction false} UsageAdds(script: Script, k: nat)
    ensures TokensLaw(script, k + 1, UsageUpTo(script, k))
  {
    if k == 0 {
    } else {
      UsageAdds(script, k - 1);
    }
  }

  lemma {:induction false} ToolTimeAdds(script: Script, k: nat)
    ensures WallToolUpTo(script, k) == Sum(BatchTimes(script), k)
  {
    if k == 0 {
    } else {
      ToolTimeAdds(script, k - 1);
    }
  }

  lemma {:induction false} ModelTimeAdds(script: Script, k: nat)
    ensures WallModelUpTo(script, k) == Sum(CallTimes(script), k + 1)
  {
    if k == 0 {
    } else {
      ModelTimeAdds(script, k - 1);
    }
  }

  /** The last of n + 2 plain calls was answered without a choices list, and its body carried no pin. */
  ghost predicate LateReply(script: Script, n: nat, plain: seq<Body>) {
    && |plain| == n + 2 && !plain[n + 1].choice.Pin?
    && script.rounds(n).answer.Some? && script.rounds(n).answer.value.NoChoices?
  }

  /** Replies 0 to n - 1 went on and reply n did not; so many plain calls were made. */
  ghost predicate RunsTo(req: Request, script: Script, n: nat, plainCalls: nat) {
    && n <= 20 && (forall k: nat :: k < n ==> GoesOn(req, script, k)) && !GoesOn(req, script, n)
    && plainCalls == n + (if AsksAgain(req, script, n) then 2 else 1)
  }

  /** The entries of the answerable calls of replies 0 to n - 1, and of those of reply n that were folded. */
  ghost predicate CallsReported(req: Request, script: Script, n: nat, toolCalls: seq<Entry>) {
    exists m: nat :: FoldsUpTo(req, script, n, m) && EntriesLaw(req, script, Folded(req, script, n, m), toolCalls)
  }

  ghost predicate OutputsReported(req: Request, script: Script, n: nat, toolResults: seq<Output>) {
    exists m: nat :: FoldsUpTo(req, script, n, m) &&
                     toolResults == Pick(Folded(req, script, n, m), OutputAt(req, script))
  }

  /** The trace of n + 1 calls with those tools, and the late reply behind them. */
  ghost predicate SegmentsReported(req: Request, script: Script, n: nat, late: bool, segments: seq<Segment>) {
    exists m: nat :: FoldsUpTo(req, script, n, m) &&
      var l := n + 1 + |Folded(req, script, n, m)|;
      && |segments| == l + (if late then 1 else 0)
      && TraceLaw(req, script, n, Folded(req, script, n, m), segments[..l])
      && (late ==> segments[l] == ModelSegmentAt(script, n + 1))
  }

  /** The time of the batches that were waited for, one before each call but the first, and of the calls that were traced. */
  ghost predicate TimesReported(script: Script, n: nat, late: bool, plainCalls: nat, modelTime: int, toolsTime: int) {
    && plainCalls > 0 && toolsTime == Sum(BatchTimes(script), plainCalls - 1)
    && modelTime == Sum(CallTimes(script), if late then n + 2 else n + 1)
  }

  /** Plain call i was sent the opening and the first i rounds. */
  ghost predicate BodiesReported(req: Request, script: Script, plain: seq<Body>) {
    forall i :: 0 <= i < |plain| ==>
      !plain[i].stream && Conversation(req, script, i, PlacesUpTo(req, script, i), plain[i].messages)
  }

  /** The turn of reply n and its first t answers: all, or those before the first that cannot be written. */
  ghost predicate BegunUpTo(req: Request, script: Script, n: nat, t: nat, messages: seq<Message>) {
    var places := RoundPlaces(req, script, n);
    && t <= |places| && AllWrite(req, script, places[..t])
    && (t < |places| ==> !AllWrite(req, script, places[..t + 1]))
    && Conversation(req, script, n + 1, Folded(req, script, n, t), messages)
  }

  /** The history at the end: those rounds, and of a round that was begun its turn and the answers that could be written. */
  ghost predicate HistoryReported(req: Request, script: Script, n: nat, messages: seq<Message>) {
    if !Declares(script, n) then Conversation(req, script, n, PlacesUpTo(req, script, n), messages)
    else exists t: nat :: BegunUpTo(req, script, n, t, messages)
  }

  lemma {:induction false} ExitRunsTo(req: Request, script: Script, exit: Exit)
    requires ExitIs(req, script, exit)
    ensures RunsTo(req, script, exit.state.loopIndex, |exit.state.sent|)
  {
    var n := exit.state.loopIndex;
    HeadIs(req, script, n);
    forall k: nat | k < n ensures GoesOn(req, script, k) {
      HeadIs(req, script, k);
    }
  }

  lemma {:induction false} ExitCalls(req: Request, script: Script, exit: Exit)
    requires ExitIs(req, script, exit)
    ensures CallsReported(req, script, exit.state.loopIndex, exit.state.gathered)
    ensures OutputsReported(req, script, exit.state.loopIndex, exit.state.outputs)
  {
    var n := exit.state.loopIndex;
    var m := Kept(exit.why, RoundRecords(req, script, n));
    CutIs(req, script, n, exit.why);
    FirstRecordsAt(req, script, n, m);
    var more, recs := RoundPlaces(req, script, n)[..m], RoundRecords(req, script, n)[..m];
    EntriesUpToLaw(req, script, n);
    EntriesGrow(req, script, PlacesUpTo(req, script, n), EntriesUpTo(req, script, n), more, recs);
    OutputsUpToLaw(req, script, n);
    OutputsAtPlaces(req, script, more, recs);
    PickConcat(PlacesUpTo(req, script, n), more, OutputAt(req, script));
  }

  lemma {:induction false} ExitLate(req: Request, script: Script, exit: Exit)
    requires ExitIs(req, script, exit)
    ensures LateReply(script, exit.state.loopIndex, exit.state.sent) <==>
            exit.why == ReplyFault && !ChoiceAt(PrepareTools(req), script, exit.state.loopIndex + 1).Pin?
  {
    HeadIs(req, script, exit.state.loopIndex);
  }

  lemma {:induction false} SegmentsAre(req: Request, script: Script, n: nat, m: nat, late: bool, trace: seq<Segment>)
    requires FoldsUpTo(req, script, n, m) && |RoundRecords(req, script, n)| == |RoundPlaces(req, script, n)|
    requires trace == TraceUpTo(req, script, n) + ToolSegments(RoundRecords(req, script, n)[..m]) +
                      (if late then [ModelSegmentAt(script, n + 1)] else [])
    ensures SegmentsReported(req, script, n, late, trace)
  {
    TraceUpToLaw(req, script, n);
    RoundFollows(req, script, n, m, TraceUpTo(req, script, n));
    var before := TraceUpTo(req, script, n) + ToolSegments(RoundRecords(req, script, n)[..m]);
    assert trace[..|before|] == before;
  }

  lemma {:induction false} LateSegmentIs(script: Script, n: nat, choice: Choice, why: Stop)
    ensures LateSegments(choice, n, script.rounds(n), why) ==
            if why == ReplyFault && !choice.Pin? then [ModelSegmentAt(script, n + 1)] else []
  {
  }

  lemma {:induction false} ExitSegments(req: Request, script: Script, exit: Exit, late: bool)
    requires ExitReason(req, script, exit) && ExitTrace(req, script, exit)
    requires late <==> exit.why == ReplyFault && !ChoiceAt(PrepareTools(req), script, exit.state.loopIndex + 1).Pin?
    ensures SegmentsReported(req, script, exit.state.loopIndex, late, exit.state.trace)
  {
    var n := exit.state.loopIndex;
    CutIs(req, script, n, exit.why);
    FirstRecordsAt(req, script, n, 0);
    LateSegmentIs(script, n, ChoiceAt(PrepareTools(req), script, n + 1), exit.why);
    SegmentsAre(req, script, n, Kept(exit.why, RoundRecords(req, script, n)), late, exit.state.trace);
  }

  lemma {:induction false} TimesAre(script: Script, n: nat, choice: Choice, why: Stop, modelTime: int, toolsTime: int)
    requires modelTime == WallModelUpTo(script, n) + LateTime(choice, script.rounds(n), why)
    requires toolsTime == WallToolUpTo(script, n) + (if why.AfterCall() then BatchTimes(script)(n) else 0)
    ensures TimesReported(script, n, why == ReplyFault && !choice.Pin?, if why.AfterCall() then n + 2 else n + 1,
                          modelTime, toolsTime)
  {
    ModelTimeAdds(script, n);
    ToolTimeAdds(script, n);
    assert Sum(CallTimes(script), n + 2) == Sum(CallTimes(script), n + 1) + CallTimes(script)(n + 1);
  }

  lemma {:induction false} ExitTimes(req: Request, script: Script, exit: Exit, late: bool)
    requires ExitTotals(req, script, exit)
    requires late <==> exit.why == ReplyFault && !ChoiceAt(PrepareTools(req), script, exit.state.loopIndex + 1).Pin?
    requires |exit.state.sent| == if exit.why.AfterCall() then exit.state.loopIndex + 2 else exit.state.loopIndex + 1
    ensures TimesReported(script, exit.state.loopIndex, late, |exit.state.sent|, exit.state.wallModel, exit.state.wallTool)
  {
    var n := exit.state.loopIndex;
    TimesAre(script, n, ChoiceAt(PrepareTools(req), script, n + 1), exit.why, exit.state.wallModel, exit.state.wallTool);
  }

  lemma {:induction false} ExitBodies(req: Request, script: Script, exit: Exit)
    requires ExitIs(req, script, exit)
    ensures BodiesReported(req, script, exit.state.sent)
  {
    BodiesSent(req, script, exit);
    forall i | 0 <= i < |exit.state.sent|
      ensures Conversation(req, script, i, PlacesUpTo(req, script, i), exit.state.sent[i].messages)
    {
      HistoryLawUpTo(req, script, i);
    }
  }

  lemma {:induction false} NoRoundBegun(req: Request, script: Script, n: nat)
    requires !Declares(script, n)
    ensures HistoryReported(req, script, n, HistoryUpTo(req, script, n))
    ensures HistoryUpTo(req, script, n) + [] == HistoryUpTo(req, script, n)
  {
    HistoryLawUpTo(req, script, n);
  }

  lemma {:induction false} ExitHistoryReported(req: Request, script: Script, exit: Exit)
    requires ExitReason(req, script, exit) && ExitHistory(req, script, exit)
    ensures HistoryReported(req, script, exit.state.loopIndex, exit.state.history)
  {
    var n := exit.state.loopIndex;
    HeadIs(req, script, n);
    if exit.why.AfterTurn() {
      BegunRound(req, script, n, exit.why);
    } else {
      NoRoundBegun(req, script, n);
      assert WholeRound(req, script, n)[..0] == [];
    }
  }

  lemma {:induction false} Regrouped(a: seq<Message>, b: seq<Message>, c: seq<Message>)
    ensures a + (b + c) == a + b + c
  {
  }

  lemma {:induction false} CutIsClean(req: Request, script: Script, n: nat, why: Stop)
    requires n <= MAX_ROUNDS && WhyLeft(req, script, n) == Some(why) && why.AfterTurn()
    ensures CutLength(why, RoundRecords(req, script, n)) == 1 + CleanPrefix(RoundRecords(req, script, n))
  {
  }

  lemma {:induction false} BegunRound(req: Request, script: Script, n: nat, why: Stop)
    requires n <= MAX_ROUNDS && WhyLeft(req, script, n) == Some(why) && why.AfterTurn()
    ensures HistoryReported(req, script, n, HistoryUpTo(req, script, n) +
                                            WholeRound(req, script, n)[..CutLength(why, RoundRecords(req, script, n))])
  {
    var t := CleanPrefix(RoundRecords(req, script, n));
    HeadIs(req, script, n);
    CutIsClean(req, script, n, why);
    BegunWith(req, script, n, t);
    TurnsCut(req, script, n, t);
    Regrouped(HistoryUpTo(req, script, n), [AssistantTurn(Calls(script, n))], Turns(RoundRecords(req, script, n)[..t]));
  }

  lemma {:induction false} BegunWith(req: Request, script: Script, n: nat, t: nat)
    requires t == CleanPrefix(RoundRecords(req, script, n))
    ensures BegunUpTo(req, script, n, t, HistoryUpTo(req, script, n) + [AssistantTurn(Calls(script, n))] +
                                         Turns(RoundRecords(req, script, n)[..t]))
  {
    CutWrites(req, script, n, t);
    HistoryLawUpTo(req, script, n);
    RoundSpoken(req, script, n, t, HistoryUpTo(req, script, n));
  }

  lemma {:induction false} TurnsCut(req: Request, script: Script, n: nat, t: nat)
    requires t <= |RoundRecords(req, script, n)|
    ensures WholeRound(req, script, n)[..1 + t] == [AssistantTurn(Calls(script, n))] + Turns(RoundRecords(req, script, n)[..t])
    ensures |RoundRecords(req, script, n)| == |RoundPlaces(req, script, n)|
  {
    RoundRecordsAt(req, script, n);
  }

  // ---------- The choices that were sent ----------

  /** The names that bodies 0 to i pinned and their replies used, in order. */
  ghost function UsedPins(script: Script, sent: seq<Body>, i: nat): seq<string>
    requires i < |sent|
  {
    (if i == 0 then [] else UsedPins(script, sent, i - 1)) +
    (if UsesPin(sent[i].choice, ReplyAt(script, i)) then [sent[i].choice.name] else [])
  }

  /** Of the replies 0 to i that tell of a pin, the latest one used it. */
  ghost predicate LatestPinUsed(script: Script, sent: seq<Body>, i: nat)
    requires i < |sent|
  {
    exists k :: 0 <= k <= i && UsesPin(sent[k].choice, ReplyAt(script, k)) &&
      forall l :: k < l <= i ==> !TellsOfPin(sent[l].choice, ReplyAt(script, l))
  }

  /** The choice of the base body, and the forced tools that it pins. */
  ghost predicate BaseChoice(req: Request, choice: Choice, pinned: seq<string>) {
    var tools := req.Tools();
    && (choice == Unset <==> forall i :: 0 <= i < |tools| ==> SuppressedAt(tools, i))
    && (choice == Unset ==> pinned == [])
    && (choice != Unset ==> exists at :: ForcedAt(tools, pinned, at))
    && (choice != Unset ==> choice == if pinned == [] then Auto else Pin(pinned[0]))
  }

  /**
    The first body carries the base choice. A later one carries it too, unless the latest reply that tells of a
    pin used it: then it pins the first forced tool that no reply has used yet, or is auto when there is none.
    */
  ghost predicate ChoicesReported(req: Request, script: Script, sent: seq<Body>) {
    sent != [] ==> exists pinned: seq<string> :: BaseChoice(req, sent[0].choice, pinned) && LaterChoices(script, sent, pinned)
  }

  ghost predicate LaterChoices(script: Script, sent: seq<Body>, pinned: seq<string>) {
    forall i: nat :: i < |sent| - 1 ==> NextChoiceLaw(script, sent, pinned, i)
  }

  ghost predicate NextChoiceLaw(script: Script, sent: seq<Body>, pinned: seq<string>, i: nat)
    requires i + 1 < |sent|
  {
    var used, next := UsedPins(script, sent, i), sent[i + 1].choice;
    if !LatestPinUsed(script, sent, i) then next == sent[0].choice
    else if forall p :: p in pinned ==> p in used then next == Auto
    else next.Pin? && next.name !in used &&
         exists k :: 0 <= k < |pinned| && pinned[k] == next.name && forall l :: 0 <= l < k ==> pinned[l] in used
  }

  /** The choices of the first n bodies are those of the run. */
  ghost predicate ChoicesOf(pins: Pins, script: Script, sent: seq<Body>, n: nat) {
    n <= |sent| && forall k {:trigger ChoiceAt(pins, script, k)} :: 0 <= k < n ==> sent[k].choice == ChoiceAt(pins, script, k)
  }

  /** The tracker is what the sent choices and the replies make of it. */
  ghost predicate Tracked(script: Script, sent: seq<Body>, i: nat, t: Tracker)
    requires i < |sent|
  {
    t.spent == UsedPins(script, sent, i) && (t.activated <==> LatestPinUsed(script, sent, i))
  }

  ghost predicate TrackedAt(pins: Pins, script: Script, sent: seq<Body>, i: nat)
    requires i < |sent|
  {
    Tracked(script, sent, i, TrackerAt(pins, script, i))
  }

  lemma {:induction false} TrackerStarts(pins: Pins, script: Script, sent: seq<Body>)
    requires ChoicesOf(pins, script, sent, 1)
    ensures TrackedAt(pins, script, sent, 0)
  {
    assert sent[0].choice == ChoiceAt(pins, script, 0);
    TracksByTheLaw(FRESH, pins.original, ReplyAt(script, 0));
  }

  lemma {:induction false} TrackerMovesOn(script: Script, sent: seq<Body>, i: nat, before: Tracker, after: Tracker)
    requires 0 < i < |sent| && Tracked(script, sent, i - 1, before)
    requires TrackLaw(before, sent[i].choice, ReplyAt(script, i), after)
    ensures Tracked(script, sent, i, after)
  {
    LatestMovesOn(script, sent, i);
  }

  lemma {:induction false} NextTracked(pins: Pins, script: Script, sent: seq<Body>, k: nat)
    requires ChoicesOf(pins, script, sent, k + 2) && TrackedAt(pins, script, sent, k)
    ensures TrackedAt(pins, script, sent, k + 1)
  {
    var t := TrackerAt(pins, script, k);
    assert sent[k + 1].choice == ChoiceAt(pins, script, k + 1);
    TracksByTheLaw(t, sent[k + 1].choice, ReplyAt(script, k + 1));
    TrackerMovesOn(script, sent, k + 1, t, Track(t, sent[k + 1].choice, ReplyAt(script, k + 1)));
  }

  lemma {:induction false} FewerChoices(pins: Pins, script: Script, sent: seq<Body>, n: nat, m: nat)
    requires ChoicesOf(pins, script, sent, n) && m <= n
    ensures ChoicesOf(pins, script, sent, m)
  {
  }

  lemma {:induction false} TrackerIs(pins: Pins, script: Script, sent: seq<Body>, i: nat)
    requires ChoicesOf(pins, script, sent, i + 1)
    ensures TrackedAt(pins, script, sent, i)
  {
    var k := 0;
    FewerChoices(pins, script, sent, i + 1, 1);
    TrackerStarts(pins, script, sent);
    while k < i
      invariant k <= i && TrackedAt(pins, script, sent, k)
    {
      FewerChoices(pins, script, sent, i + 1, k + 2);
      NextTracked(pins, script, sent, k);
      k := k + 1;
    }
  }

  lemma {:induction false} LatestMovesOn(script: Script, sent: seq<Body>, i: nat)
    requires 0 < i < |sent|
    ensures LatestPinUsed(script, sent, i) <==>
            UsesPin(sent[i].choice, ReplyAt(script, i)) ||
            (!TellsOfPin(sent[i].choice, ReplyAt(script, i)) && LatestPinUsed(script, sent, i - 1))
  {
    if LatestPinUsed(script, sent, i) {
      var k :| 0 <= k <= i && UsesPin(sent[k].choice, ReplyAt(script, k)) &&
               forall l :: k < l <= i ==> !TellsOfPin(sent[l].choice, ReplyAt(script, l));
      if k < i {
        assert !TellsOfPin(sent[i].choice, ReplyAt(script, i));
        assert LatestPinUsed(script, sent, i - 1);
      }
    }
    if LatestPinUsed(script, sent, i - 1) && !TellsOfPin(sent[i].choice, ReplyAt(script, i)) {
      var k :| 0 <= k <= i - 1 && UsesPin(sent[k].choice, ReplyAt(script, k)) &&
               forall l :: k < l <= i - 1 ==> !TellsOfPin(sent[l].choice, ReplyAt(script, l));
      assert forall l :: k < l <= i ==> !TellsOfPin(sent[l].choice, ReplyAt(script, l));
    }
  }

  lemma {:induction false} BaseChoiceIs(req: Request)
    ensures BaseChoice(req, PrepareTools(req).original, PrepareTools(req).pinned)
  {
    PreparedChoice(req);
  }

  lemma {:induction false} NextChoiceIs(pins: Pins, script: Script, sent: seq<Body>, i: nat)
    requires Coherent(pins) && ChoicesOf(pins, script, sent, i + 2)
    ensures NextChoiceLaw(script, sent, pins.pinned, i)
  {
    TrackerIs(pins, script, sent, i);
    var t := TrackerAt(pins, script, i);
    assert sent[i + 1].choice == ChoiceAt(pins, script, i + 1);
    assert sent[0].choice == ChoiceAt(pins, script, 0);
    if t.activated {
      OverridePinsFirstUnspent(pins, script, i);
      NothingUnspentIff(pins, t);
      if sent[i + 1].choice != Auto {
        FirstUnspentAt(pins.pinned, t.spent, sent[i + 1].choice.name);
      }
    }
  }

  lemma {:induction false} NothingUnspentIff(pins: Pins, t: Tracker)
    ensures Unspent(pins, t) == {} <==> forall p :: p in pins.pinned ==> p in t.spent
  {
    if p :| p in pins.pinned && p !in t.spent {
      assert p in Unspent(pins, t);
    }
  }

  lemma {:induction false} FirstUnspentAt(pinned: seq<string>, spent: seq<string>, name: string)
    requires IsFirstUnspent(pinned, spent, name)
    ensures name !in spent &&
            exists k :: 0 <= k < |pinned| && pinned[k] == name && forall l :: 0 <= l < k ==> pinned[l] in spent
  {
    var k :| 0 <= k < |pinned| && pinned[k] == name && name !in spent && AllIn(pinned[..k], spent);
    forall l | 0 <= l < k ensures pinned[l] in spent {
      assert pinned[..k][l] in pinned[..k];
    }
  }

  lemma {:induction false} ChoicesAreReported(req: Request, script: Script, sent: seq<Body>)
    requires ChoicesOf(PrepareTools(req), script, sent, |sent|)
    ensures ChoicesReported(req, script, sent)
  {
    var pins := PrepareTools(req);
    BaseChoiceIs(req);
    if sent != [] {
      forall i: nat | i < |sent| - 1 ensures NextChoiceLaw(script, sent, pins.pinned, i) {
        NextChoiceIs(pins, script, sent, i);
      }
      assert sent[0].choice == ChoiceAt(pins, script, 0);
      assert LaterChoices(script, sent, pins.pinned);
    }
  }

  lemma {:induction false} ExitChoices(req: Request, script: Script, exit: Exit)
    requires ExitIs(req, script, exit)
    ensures ChoicesReported(req, script, exit.state.sent)
  {
    BodiesSent(req, script, exit);
    forall k | 0 <= k < |exit.state.sent|
      ensures exit.state.sent[k].choice == ChoiceAt(PrepareTools(req), script, k)
    {
      assert exit.state.sent[k] == BodyAt(req, PrepareTools(req), script, k);
    }
    ChoicesAreReported(req, script, exit.state.sent);
  }

  // ---------- What is handed back ----------

  /** The text of the latest reply that has any, trimmed of its fences exactly if it is reply 20. */
  ghost predicate ContentReported(script: Script, n: nat, content: string) {
    && (forall m: nat :: m <= n && TextAt(script, m) != "" && (forall i: nat :: m < i <= n ==> TextAt(script, i) == "") ==>
          content == if m == 20 then Text.TrimFences(TextAt(script, m)) else TextAt(script, m))
    && ((forall i: nat :: i <= n ==> TextAt(script, i) == "") ==> content == "")
  }

  lemma {:induction false} ContentIs(script: Script, exit: Exit)
    requires ContentLaw(script, exit)
    ensures ContentReported(script, exit.state.loopIndex, exit.state.content.Shown())
  {
    var n := exit.state.loopIndex;
    forall i: nat ensures TextAt(script, i) == ReplyAt(script, i).Text() {
      ReadingIs(script, i);
    }
    forall m: nat | m <= n && TextAt(script, m) != "" && forall i: nat :: m < i <= n ==> TextAt(script, i) == ""
      ensures exit.state.content.Shown() == if m == 20 then Text.TrimFences(TextAt(script, m)) else TextAt(script, m)
    {
      assert LatestWithText(script, m, n);
    }
  }

  /** What a plain and a streamed result report alike, of a run that reply n has ended. */
  ghost predicate LedgersReported(req: Request, script: Script, n: nat, plain: seq<Body>, toolCalls: seq<Entry>,
                                  segments: seq<Segment>, modelTime: int, toolsTime: int, firstResponse: int) {
    && RunsTo(req, script, n, |plain|) && BodiesReported(req, script, plain) && ChoicesReported(req, script, plain)
    && CallsReported(req, script, n, toolCalls)
    && SegmentsReported(req, script, n, LateReply(script, n, plain), segments)
    && TimesReported(script, n, LateReply(script, n, plain), |plain|, modelTime, toolsTime)
    && firstResponse == script.firstEnd - script.callT0
  }

  ghost predicate AnswerReported(req: Request, script: Script, sent: seq<Body>, result: Result)
    requires result.Answered?
  {
    var n, t := result.timing.iterations - 1, result.timing;
    && n >= 0
    && LedgersReported(req, script, n, sent, result.toolCalls, t.segments, t.modelTime, t.toolsTime, t.firstResponse)
    && TokensLaw(script, n + 1, result.tokens) && OutputsReported(req, script, n, result.toolResults)
    && ContentReported(script, n, result.content) && t.duration == script.tEnd - script.t0
  }

  ghost predicate StreamReported(req: Request, script: Script, plain: seq<Body>, last: Body, result: Result)
    requires result.Streamed?
  {
    var n := result.iterations - 1;
    && n >= 0
    && LedgersReported(req, script, n, plain, result.toolCalls, result.segments, result.modelTime, result.toolsTime,
                       result.firstResponse)
    && script.finalStream.Some?
    && (exists before: Tokens :: TokensLaw(script, n + 1, before) && Added(before, script.finalStream.value, result.tokens))
    && last.stream && last.choice == Auto && HistoryReported(req, script, n, last.messages)
  }

  ghost predicate Added(a: Tokens, b: Tokens, sum: Tokens) {
    sum.input == a.input + b.input && sum.output == a.output + b.output && sum.total == a.total + b.total
  }

  /** Which kind of result a request gets, and what it then reports. */
  ghost predicate RequestLaw(req: Request, script: Script, run: Execution) {
    if !req.hasKey then run == Execution(Refused, [])
    else if req.stream && req.Tools() == [] then
      && |run.sent| == 1 && run.sent[0].stream && run.sent[0].choice == Unset
      && Conversation(req, script, 0, [], run.sent[0].messages)
      && run.result == match script.finalStream case None => Errored case Some(used) => StreamedDirectly(used)
    else if !Readable(script.first) then
      && run.result == Errored && |run.sent| == 1
      && BodiesReported(req, script, run.sent) && ChoicesReported(req, script, run.sent)
    else if !req.stream then
      run.result.Answered? && AnswerReported(req, script, run.sent, run.result)
    else if script.finalStream.None? then
      && run.result == Errored && run.sent != []
      && BodiesReported(req, script, run.sent[..|run.sent| - 1]) && ChoicesReported(req, script, run.sent[..|run.sent| - 1])
    else
      run.result.Streamed? && run.sent != [] &&
      StreamReported(req, script, run.sent[..|run.sent| - 1], run.sent[|run.sent| - 1], run.result)
  }

  /** What an exit state holds. */
  ghost predicate StateReported(req: Request, script: Script, s: Loop) {
    var n := s.loopIndex;
    && LedgersReported(req, script, n, s.sent, s.gathered, s.trace, s.wallModel, s.wallTool, s.firstMs)
    && TokensLaw(script, n + 1, s.budget) && OutputsReported(req, script, n, s.outputs)
    && HistoryReported(req, script, n, s.history) && ContentReported(script, n, s.content.Shown())
  }

  lemma {:induction false} ExitTotalsReported(req: Request, script: Script, exit: Exit)
    requires ExitIs(req, script, exit)
    ensures var s, n := exit.state, exit.state.loopIndex;
            && TimesReported(script, n, LateReply(script, n, s.sent), |s.sent|, s.wallModel, s.wallTool)
            && s.firstMs == script.firstEnd - script.callT0 && TokensLaw(script, n + 1, s.budget)
  {
    UsageAdds(script, exit.state.loopIndex);
    ExitLate(req, script, exit);
    ExitTimes(req, script, exit, LateReply(script, exit.state.loopIndex, exit.state.sent));
  }

  lemma {:induction false} ExitReports(req: Request, script: Script, exit: Exit)
    requires ExitIs(req, script, exit)
    ensures StateReported(req, script, exit.state)
  {
    ExitRunsTo(req, script, exit);
    ExitBodies(req, script, exit);
    ExitChoices(req, script, exit);
    ExitHistoryReported(req, script, exit);
    ExitCalls(req, script, exit);
    ExitLate(req, script, exit);
    ExitSegments(req, script, exit, LateReply(script, exit.state.loopIndex, exit.state.sent));
    ExitTotalsReported(req, script, exit);
    ContentProvenance(req, script, exit);
    ContentIs(script, exit);
  }

  lemma {:induction false} FinishAnswers(req: Request, script: Script, s: Loop)
    requires !req.stream && StateReported(req, script, s)
    ensures var run := Finish(req, script, s); run.result.Answered? && AnswerReported(req, script, run.sent, run.result)
  {
  }

  lemma {:induction false} FinishStreams(req: Request, script: Script, s: Loop)
    requires req.stream && script.finalStream.Some? && StateReported(req, script, s)
    ensures Finish(req, script, s).result.Streamed?
    ensures StreamReported(req, script, s.sent, Body(s.history, Auto, true), Finish(req, script, s).result)
  {
    assert Added(s.budget, script.finalStream.value, Finish(req, script, s).result.tokens);
  }

  lemma {:induction false} LastSent(req: Request, script: Script, s: Loop)
    requires req.stream
    ensures var sent := Finish(req, script, s).sent;
            sent != [] && sent[..|sent| - 1] == s.sent && sent[|sent| - 1] == Body(s.history, Auto, true)
  {
  }

  lemma {:induction false} FinishHandsBack(req: Request, script: Script, s: Loop)
    requires req.hasKey && !(req.stream && req.Tools() == []) && Readable(script.first) && StateReported(req, script, s)
    ensures RequestLaw(req, script, Finish(req, script, s))
  {
    if !req.stream {
      FinishAnswers(req, script, s);
    } else {
      LastSent(req, script, s);
      if script.finalStream.Some? {
        FinishStreams(req, script, s);
      }
    }
  }

  /** Every request, whatever the model, the tools and the clock answer. */
  lemma {:induction false} EveryRequest(req: Request, script: Script)
    ensures RequestLaw(req, script, Execute(req, script))
  {
    FirstHistoryLaw(req, script);
    BaseChoiceIs(req);
    if req.hasKey && !(req.stream && req.Tools() == []) && Readable(script.first) {
      EveryExitIs(req, script);
      ExitReports(req, script, TheExit(req, script));
      FinishHandsBack(req, script, TheExit(req, script).state);
    }
  }
}
