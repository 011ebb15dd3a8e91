/** What holds of every run of the tool loop, whatever the model, the tools and the clock answer. */
module LoopProperties {
  import opened Prelude
  import opened Chat
  import opened ToolBatch
  import opened ToolChoice
  import opened ToolLoop

  // ---------- The exit state, field by field ----------

  /** How many messages of a last, unfinished round stand at the end of the history. */
  function CutLength(why: Stop, recs: seq<Invocation>): (m: nat)
    ensures m <= 1 + |recs|
  {
    match why
    case SerialiseFault => 1 + CleanPrefix(recs)
    case ModelFault => 1 + |recs|
    case ReplyFault => 1 + |recs|
    case _ => 0
  }

  /** How many records of that round reached the other ledgers. */
  function Kept(why: Stop, recs: seq<Invocation>): (m: nat)
    ensures m <= |recs|
  {
    match why
    case SerialiseFault => Reached(recs)
    case ModelFault => |recs|
    case ReplyFault => |recs|
    case _ => 0
  }

  function WholeRound(req: Request, script: Script, k: nat): (r: seq<Message>)
    ensures |r| == 1 + |RoundRecords(req, script, k)|
  {
    [AssistantTurn(Calls(script, k))] + Turns(RoundRecords(req, script, k))
  }

  /** Why a pass over these calls, runs and answer leaves the loop; None is a pass that goes on. */
  function WhyPassStops(req: Request, calls: seq<ToolCall>, env: RoundScript): Option<Stop> {
    var recs := Records(Slots(req, calls, env.runs));
    if calls == [] then Some(NothingPending)
    else if AnyBare(calls) then Some(BareCallFault)
    else if CleanPrefix(recs) < |recs| then Some(SerialiseFault)
    else if env.answer.None? then Some(ModelFault)
    else if env.answer.value.NoChoices? then Some(ReplyFault)
    else None
  }

  /** Why the loop is left at head n, from the outside answers alone. */
  function WhyLeft(req: Request, script: Script, n: nat): Option<Stop> {
    if n >= MAX_ROUNDS then Some(Capped) else WhyPassStops(req, Calls(script, n), script.rounds(n))
  }

  ghost predicate ExitReason(req: Request, script: Script, exit: Exit) {
    exit.state.loopIndex <= MAX_ROUNDS && WhyLeft(req, script, exit.state.loopIndex) == Some(exit.why)
  }

  ghost predicate WentOnUntil(req: Request, script: Script, n: nat) {
    forall i :: 0 <= i < n ==> WhyLeft(req, script, i).None?
  }

  /** The trace of an unreadable last reply: nothing if its call carried a pin. */
  function LateSegments(choice: Choice, loopIndex: nat, env: RoundScript, why: Stop): seq<Segment> {
    if why == ReplyFault && !choice.Pin? then [CallSegment(loopIndex, env)] else []
  }

  /** The wall time of an unreadable last reply. */
  function LateTime(choice: Choice, env: RoundScript, why: Stop): int {
    if why == ReplyFault && !choice.Pin? then env.modelEnd - env.modelT0 else 0
  }

  ghost predicate ExitHistory(req: Request, script: Script, exit: Exit) {
    var n := exit.state.loopIndex;
    exit.state.history == HistoryUpTo(req, script, n) +
                          WholeRound(req, script, n)[..CutLength(exit.why, RoundRecords(req, script, n))]
  }

  /** The records of the last round that reached the ledgers. */
  function KeptRecords(req: Request, script: Script, exit: Exit): seq<Invocation> {
    var recs := RoundRecords(req, script, exit.state.loopIndex);
    recs[..Kept(exit.why, recs)]
  }

  ghost predicate ExitGathered(req: Request, script: Script, exit: Exit) {
    exit.state.gathered == EntriesUpTo(req, script, exit.state.loopIndex) + Entries(KeptRecords(req, script, exit))
  }

  ghost predicate ExitTrace(req: Request, script: Script, exit: Exit) {
    var n := exit.state.loopIndex;
    exit.state.trace == TraceUpTo(req, script, n) + ToolSegments(KeptRecords(req, script, exit)) +
                        LateSegments(ChoiceAt(PrepareTools(req), script, n + 1), n, script.rounds(n), exit.why)
  }

  ghost predicate ExitLedgers(req: Request, script: Script, exit: Exit) {
    && ExitGathered(req, script, exit)
    && exit.state.outputs == OutputsUpTo(req, script, exit.state.loopIndex) + Outputs(KeptRecords(req, script, exit))
    && ExitTrace(req, script, exit)
  }

  ghost predicate ExitTotals(req: Request, script: Script, exit: Exit) {
    var s, n := exit.state, exit.state.loopIndex;
    && s.budget == s.accumulated == UsageUpTo(script, n)
    && s.firstMs == script.firstEnd - script.callT0
    && s.wallModel == WallModelUpTo(script, n) +
                      LateTime(ChoiceAt(PrepareTools(req), script, n + 1), script.rounds(n), exit.why)
    && s.wallTool == WallToolUpTo(script, n) +
                     (if exit.why.AfterCall() then script.rounds(n).batchEnd - script.rounds(n).batchT0 else 0)
  }

  ghost predicate ExitContent(script: Script, exit: Exit) {
    var n := exit.state.loopIndex;
    exit.state.content == if exit.why == Capped && ReplyAt(script, n).Text() != ""
                          then Trimmed(ReplyAt(script, n).Text())
                          else Raw(LatestText(script, n))
  }

  ghost predicate ExitSent(req: Request, script: Script, exit: Exit) {
    var pins, n := PrepareTools(req), exit.state.loopIndex;
    exit.state.sent == SentUpTo(req, pins, script, n) +
                       (if exit.why.AfterCall()
                        then [Body(exit.state.history, NextChoice(pins, TrackerAt(pins, script, n)), false)]
                        else [])
  }

  /**
    The exit of a run: it left at the first head n = loopIndex that had a reason to, and this is what
    every ledger then holds.
    */
  ghost predicate ExitIs(req: Request, script: Script, exit: Exit) {
    && WentOnUntil(req, script, exit.state.loopIndex)
    && ExitReason(req, script, exit)
    && ExitHistory(req, script, exit)
    && ExitLedgers(req, script, exit)
    && ExitTotals(req, script, exit)
    && ExitContent(script, exit)
    && ExitSent(req, script, exit)
  }

  /** Why a round was cut after its turn, in terms of its records. */
  predicate CutCause(recs: seq<Invocation>, why: Stop) {
    if why == SerialiseFault then CleanPrefix(recs) < |recs| else why.AfterCall() && CleanPrefix(recs) == |recs|
  }

  /** The fold of any state's pending batch, in the terms of ExitIs. */
  lemma {:induction false} FoldInTermsOfCuts(s: Loop, calls: seq<ToolCall>, recs: seq<Invocation>, why: Stop)
    requires CutCause(recs, why)
    ensures AfterFold(s, calls, recs) ==
            s.(history := s.history + ([AssistantTurn(calls)] + Turns(recs))[..CutLength(why, recs)],
               trace := s.trace + ToolSegments(recs[..Kept(why, recs)]),
               outputs := s.outputs + Outputs(recs[..Kept(why, recs)]),
               gathered := s.gathered + Entries(recs[..Kept(why, recs)]))
  {
    var p := CleanPrefix(recs);
    assert Turns(recs[..p]) == Turns(recs)[..p];
    assert ([AssistantTurn(calls)] + Turns(recs))[..1 + p] == [AssistantTurn(calls)] + Turns(recs)[..p];
  }

  /** A pass that stops, whatever state it starts from. */
  ghost predicate StopsAs(req: Request, pins: Pins, h: Loop, env: RoundScript, s: Loop, why: Stop) {
    var calls := h.reply.Pending();
    var recs := Records(Slots(req, calls, env.runs));
    && WhyPassStops(req, calls, env) == Some(why)
    && s == h.(content := if h.reply.Text() != "" then Raw(h.reply.Text()) else h.content,
               history := h.history + ([AssistantTurn(calls)] + Turns(recs))[..CutLength(why, recs)],
               trace := h.trace + ToolSegments(recs[..Kept(why, recs)]) +
                        LateSegments(NextChoice(pins, h.tracker), h.loopIndex, env, why),
               wallModel := h.wallModel + LateTime(NextChoice(pins, h.tracker), env, why),
               outputs := h.outputs + Outputs(recs[..Kept(why, recs)]),
               gathered := h.gathered + Entries(recs[..Kept(why, recs)]),
               wallTool := h.wallTool + (if why.AfterCall() then env.batchEnd - env.batchT0 else 0),
               reply := s.reply,
               sent := s.sent)
    && s.sent == h.sent + (if why.AfterCall() then [Body(s.history, NextChoice(pins, h.tracker), false)] else [])
  }

  lemma {:induction false} StoppingBeforeTheBatch(req: Request, pins: Pins, h: Loop, env: RoundScript)
    requires WhyPassStops(req, h.reply.Pending(), env) in {Some(NothingPending), Some(BareCallFault)}
    ensures var turn := Round(req, pins, h, env);
            turn.Stopped? && StopsAs(req, pins, h, env, turn.state, turn.why)
  {
    var calls := h.reply.Pending();
    var recs := Records(Slots(req, calls, env.runs));
    assert Outputs(recs[..0]) == [] && Entries(recs[..0]) == [] && ToolSegments(recs[..0]) == [];
    assert ([AssistantTurn(calls)] + Turns(recs))[..0] == [];
  }

  lemma {:induction false} StoppingInTheFold(req: Request, pins: Pins, h: Loop, env: RoundScript)
    requires WhyPassStops(req, h.reply.Pending(), env) == Some(SerialiseFault)
    ensures var turn := Round(req, pins, h, env);
            turn.Stopped? && StopsAs(req, pins, h, env, turn.state, turn.why)
  {
    var calls := h.reply.Pending();
    var recs := Records(Slots(req, calls, env.runs));
    FoldInTermsOfCuts(AtHead(h), calls, recs, SerialiseFault);
  }

  lemma {:induction false} StoppingInTheCall(req: Request, pins: Pins, h: Loop, env: RoundScript)
    requires WhyPassStops(req, h.reply.Pending(), env) == Some(ModelFault)
    ensures var turn := Round(req, pins, h, env);
            turn.Stopped? && StopsAs(req, pins, h, env, turn.state, turn.why)
  {
    var calls := h.reply.Pending();
    var recs := Records(Slots(req, calls, env.runs));
    FoldInTermsOfCuts(AtHead(h), calls, recs, ModelFault);
  }

  lemma {:induction false} StoppingAtTheReply(req: Request, pins: Pins, h: Loop, env: RoundScript)
    requires WhyPassStops(req, h.reply.Pending(), env) == Some(ReplyFault)
    ensures var turn := Round(req, pins, h, env);
            turn.Stopped? && StopsAs(req, pins, h, env, turn.state, turn.why)
  {
    var calls := h.reply.Pending();
    var recs := Records(Slots(req, calls, env.runs));
    FoldInTermsOfCuts(AtHead(h), calls, recs, ReplyFault);
  }

  lemma {:induction false} StoppingPass(req: Request, pins: Pins, h: Loop, env: RoundScript)
    requires Round(req, pins, h, env).Stopped?
    ensures var turn := Round(req, pins, h, env);
            StopsAs(req, pins, h, env, turn.state, turn.why)
  {
    GoesOnIff(req, pins, h, env);
    if WhyPassStops(req, h.reply.Pending(), env) in {Some(NothingPending), Some(BareCallFault)} {
      StoppingBeforeTheBatch(req, pins, h, env);
    } else if WhyPassStops(req, h.reply.Pending(), env) == Some(SerialiseFault) {
      StoppingInTheFold(req, pins, h, env);
    } else if WhyPassStops(req, h.reply.Pending(), env) == Some(ModelFault) {
      StoppingInTheCall(req, pins, h, env);
    } else {
      StoppingAtTheReply(req, pins, h, env);
    }
  }

  ghost predicate StoppedAtHead(req: Request, script: Script, exit: Exit) {
    var pins, n := PrepareTools(req), exit.state.loopIndex;
    n < MAX_ROUNDS && StopsAs(req, pins, LoopHead(req, pins, script, n), script.rounds(n), exit.state, exit.why)
  }

  lemma {:induction false} GoesOnIff(req: Request, pins: Pins, h: Loop, env: RoundScript)
    ensures Round(req, pins, h, env).Continue? <==> WhyPassStops(req, h.reply.Pending(), env).None?
  {
  }

  lemma {:induction false} StopReason(req: Request, script: Script, exit: Exit)
    requires StoppedAtHead(req, script, exit)
    ensures WhyLeft(req, script, exit.state.loopIndex) == Some(exit.why)
  {
  }

  lemma {:induction false} EarlierHeadsWentOn(req: Request, script: Script, n: nat, exit: Exit)
    requires LeftFrom(Passes(req, PrepareTools(req), script), Heads(req, PrepareTools(req), script), 0, n, exit)
    ensures WentOnUntil(req, script, n)
  {
    var pins := PrepareTools(req);
    forall i | 0 <= i < n ensures WhyLeft(req, script, i).None? {
      assert Passes(req, pins, script)(i, Heads(req, pins, script)(i)).Continue?;
      GoesOnIff(req, pins, LoopHead(req, pins, script, i), script.rounds(i));
    }
  }

  lemma {:induction false} StopHistory(req: Request, script: Script, exit: Exit)
    requires StoppedAtHead(req, script, exit)
    ensures ExitHistory(req, script, exit)
  {
  }

  lemma {:induction false} StopLedgers(req: Request, script: Script, exit: Exit)
    requires StoppedAtHead(req, script, exit)
    ensures ExitLedgers(req, script, exit)
  {
  }

  lemma {:induction false} StopTotals(req: Request, script: Script, exit: Exit)
    requires StoppedAtHead(req, script, exit)
    ensures ExitTotals(req, script, exit)
  {
  }

  lemma {:induction false} StopContent(script: Script, text: string, before: Content, exit: Exit)
    requires exit.why != Capped && text == ReplyAt(script, exit.state.loopIndex).Text()
    requires before == if text != "" then Trimmed(text) else Raw(LatestText(script, exit.state.loopIndex))
    requires exit.state.content == if text != "" then Raw(text) else before
    ensures ExitContent(script, exit)
  {
  }

  lemma {:induction false} StopSent(req: Request, script: Script, exit: Exit)
    requires StoppedAtHead(req, script, exit)
    ensures ExitSent(req, script, exit)
  {
  }

  lemma {:induction false} StoppedExit(req: Request, script: Script, exit: Exit)
    requires StoppedAtHead(req, script, exit) && WentOnUntil(req, script, exit.state.loopIndex)
    ensures ExitIs(req, script, exit)
  {
    var pins, n := PrepareTools(req), exit.state.loopIndex;
    StopReason(req, script, exit);
    StopHistory(req, script, exit);
    StopLedgers(req, script, exit);
    StopTotals(req, script, exit);
    StopContent(script, ReplyAt(script, n).Text(), LoopHead(req, pins, script, n).content, exit);
    StopSent(req, script, exit);
  }

  lemma {:induction false} LeavingAHead(req: Request, script: Script, n: nat, exit: Exit)
    requires LeftFrom(Passes(req, PrepareTools(req), script), Heads(req, PrepareTools(req), script), 0, n, exit)
    ensures ExitIs(req, script, exit)
  {
    var pins := PrepareTools(req);
    EarlierHeadsWentOn(req, script, n, exit);
    if n < MAX_ROUNDS {
      StoppingPass(req, pins, LoopHead(req, pins, script, n), script.rounds(n));
      StoppedExit(req, script, exit);
    } else {
      CappedExit(req, script, n, exit);
    }
  }

  lemma {:induction false} CappedLedgers(req: Request, script: Script, exit: Exit)
    requires exit.why == Capped && exit.state.gathered == EntriesUpTo(req, script, exit.state.loopIndex)
    requires exit.state.outputs == OutputsUpTo(req, script, exit.state.loopIndex)
    requires exit.state.trace == TraceUpTo(req, script, exit.state.loopIndex)
    ensures ExitLedgers(req, script, exit)
  {
    assert KeptRecords(req, script, exit) == [];
    assert Outputs([]) == [] && Entries([]) == [] && ToolSegments([]) == [];
  }

  lemma {:induction false} CappedHistory(req: Request, script: Script, exit: Exit)
    requires exit.why == Capped && exit.state.history == HistoryUpTo(req, script, exit.state.loopIndex)
    ensures ExitHistory(req, script, exit)
  {
    assert WholeRound(req, script, exit.state.loopIndex)[..0] == [];
  }

  lemma {:induction false} CappedContent(script: Script, exit: Exit)
    requires exit.why == Capped
    requires var text := ReplyAt(script, exit.state.loopIndex).Text();
             exit.state.content == if text != "" then Trimmed(text) else Raw(LatestText(script, exit.state.loopIndex))
    ensures ExitContent(script, exit)
  {
  }

  lemma {:induction false} CappedSent(req: Request, script: Script, exit: Exit)
    requires exit.why == Capped
    requires exit.state.sent == SentUpTo(req, PrepareTools(req), script, exit.state.loopIndex)
    ensures ExitSent(req, script, exit)
  {
  }

  lemma {:induction false} CappedTotals(req: Request, script: Script, exit: Exit)
    requires exit.why == Capped && exit.state.budget == exit.state.accumulated == UsageUpTo(script, exit.state.loopIndex)
    requires exit.state.firstMs == script.firstEnd - script.callT0
    requires exit.state.wallModel == WallModelUpTo(script, exit.state.loopIndex)
    requires exit.state.wallTool == WallToolUpTo(script, exit.state.loopIndex)
    ensures ExitTotals(req, script, exit)
  {
  }

  lemma {:induction false} CappedExit(req: Request, script: Script, n: nat, exit: Exit)
    requires exit == Exit(LoopHead(req, PrepareTools(req), script, n), Capped)
    requires n <= MAX_ROUNDS && WhyLeft(req, script, n) == Some(Capped) && WentOnUntil(req, script, n)
    ensures ExitIs(req, script, exit)
  {
    CappedHistory(req, script, exit);
    CappedTotals(req, script, exit);
    CappedLedgers(req, script, exit);
    CappedContent(script, exit);
    CappedSent(req, script, exit);
  }

  /** Every run leaves the loop this way. */
  lemma {:induction false} EveryExitIs(req: Request, script: Script)
    ensures ExitIs(req, script, TheExit(req, script))
  {
    var n := ExitIsFromAHead(req, script);
    LeavingAHead(req, script, n, TheExit(req, script));
  }

  // ---------- History ----------

  /** A message with the payload of a tool turn left out. */
  datatype Shape = Said(role: Role, text: string) | Declares(calls: seq<ToolCall>) | Answers(callId: string)

  function ShapeOf(m: Message): Shape {
    match m
    case Plain(role, text) => Said(role, text)
    case AssistantTurn(calls) => Declares(calls)
    case ToolTurn(id, _) => Answers(id)
  }

  function Shapes(h: seq<Message>): (r: seq<Shape>)
    ensures |r| == |h|
  {
    seq(|h|, i requires 0 <= i < |h| => ShapeOf(h[i]))
  }

  /**
    A whole round, from the declared calls alone: the declaring turn, then one tool turn for each
    answerable call in declared order.
    */
  function RoundShape(req: Request, calls: seq<ToolCall>): seq<Shape> {
    var ids := AnswerableIds(req, calls);
    [Declares(calls)] + seq(|ids|, i requires 0 <= i < |ids| => Answers(ids[i]))
  }

  function RoundShapes(req: Request, script: Script): nat -> seq<Shape> {
    (k: nat) => RoundShape(req, Calls(script, k))
  }

  function ShapesUpTo(req: Request, script: Script, k: nat): seq<Shape> {
    Glue(Shapes(req.InitialHistory()), RoundShapes(req, script), k)
  }

  lemma {:induction false} RoundHasItsShape(req: Request, calls: seq<ToolCall>, runs: nat -> ToolRun)
    ensures Shapes([AssistantTurn(calls)] + Turns(Records(Slots(req, calls, runs)))) == RoundShape(req, calls)
  {
    var recs := Records(Slots(req, calls, runs));
    RecordsAreTheAnswerableCalls(req, calls, runs);
    var ids := AnswerableIds(req, calls);
    forall i | 0 <= i < |recs| ensures ShapeOf(Turns(recs)[i]) == Answers(ids[i]) {
      assert RecordIds(recs)[i] == ids[i];
    }
  }

  lemma {:induction false} WholeRoundHasItsShape(req: Request, script: Script, k: nat)
    ensures Shapes(WholeRound(req, script, k)) == RoundShape(req, Calls(script, k))
  {
    RoundHasItsShape(req, Calls(script, k), script.rounds(k).runs);
  }

  lemma {:induction false} HistoryHasItsShape(req: Request, script: Script, k: nat)
    ensures Shapes(HistoryUpTo(req, script, k)) == ShapesUpTo(req, script, k)
  {
    if k == 0 {
      InitialShape(req, script);
    } else {
      HistoryHasItsShape(req, script, k - 1);
      NextHasItsShape(req, script, k - 1);
    }
  }

  lemma {:induction false} InitialShape(req: Request, script: Script)
    ensures Shapes(HistoryUpTo(req, script, 0)) == ShapesUpTo(req, script, 0)
  {
  }

  lemma {:induction false} NextHasItsShape(req: Request, script: Script, k: nat)
    requires Shapes(HistoryUpTo(req, script, k)) == ShapesUpTo(req, script, k)
    ensures Shapes(HistoryUpTo(req, script, k + 1)) == ShapesUpTo(req, script, k + 1)
  {
    WholeRoundHasItsShape(req, script, k);
    HistoryStep(req, script, k);
    ShapesConcat(HistoryUpTo(req, script, k), WholeRound(req, script, k));
  }

  lemma {:induction false} HistoryStep(req: Request, script: Script, k: nat)
    ensures HistoryUpTo(req, script, k + 1) == HistoryUpTo(req, script, k) + WholeRound(req, script, k)
  {
  }

  lemma {:induction false} RoundKeepsInitial(req: Request, script: Script, k: nat, initial: seq<Message>)
    requires initial <= HistoryUpTo(req, script, k)
    ensures initial <= HistoryUpTo(req, script, k + 1)
  {
    HistoryStep(req, script, k);
  }

  lemma {:induction false} HistoryKeepsInitial(req: Request, script: Script, k: nat)
    ensures req.InitialHistory() <= HistoryUpTo(req, script, k)
  {
    if k == 0 {
    } else {
      HistoryKeepsInitial(req, script, k - 1);
      RoundKeepsInitial(req, script, k - 1, req.InitialHistory());
    }
  }

  lemma {:induction false} ShapesConcat(a: seq<Message>, b: seq<Message>)
    ensures Shapes(a + b) == Shapes(a) + Shapes(b)
  {
  }

  /**
    The history of every run: the initial messages untouched, then one whole round for each completed
    reply that declared calls, then, only if the loop was left by an exception after its turn was
    pushed, a cut of one more round. The cut misses an answer exactly when a payload could not be
    serialised.
    */
  ghost predicate HistoryLaw(req: Request, script: Script, exit: Exit) {
    var n := exit.state.loopIndex;
    var last := RoundShape(req, Calls(script, n));
    && req.InitialHistory() <= exit.state.history
    && |exit.state.history| >= |ShapesUpTo(req, script, n)|
    && var cut := |exit.state.history| - |ShapesUpTo(req, script, n)|;
       && cut <= |last|
       && Shapes(exit.state.history) == ShapesUpTo(req, script, n) + last[..cut]
       && (cut == 0 <==> exit.why in {NothingPending, Capped, BareCallFault})
       && (cut == |last| <==> exit.why.AfterCall())
  }

  lemma {:induction false} HistoryShape(req: Request, script: Script, exit: Exit)
    requires ExitReason(req, script, exit) && ExitHistory(req, script, exit)
    ensures HistoryLaw(req, script, exit)
  {
    var n := exit.state.loopIndex;
    HistoryHasItsShape(req, script, n);
    HistoryKeepsInitial(req, script, n);
    WholeRoundHasItsShape(req, script, n);
    var cut := CutLength(exit.why, RoundRecords(req, script, n));
    var round := WholeRound(req, script, n);
    assert Shapes(round[..cut]) == Shapes(round)[..cut];
    ShapesConcat(HistoryUpTo(req, script, n), round[..cut]);
  }

  function Declarations(shapes: seq<Shape>): nat {
    if shapes == [] then 0
    else Declarations(shapes[..|shapes| - 1]) + (if shapes[|shapes| - 1].Declares? then 1 else 0)
  }

  lemma {:induction false} DeclarationsConcat(a: seq<Shape>, b: seq<Shape>)
    ensures Declarations(a + b) == Declarations(a) + Declarations(b)
  {
    if b == [] {
      assert a + b == a;
    } else {
      assert (a + b)[..|a + b| - 1] == a + b[..|b| - 1];
      DeclarationsConcat(a, b[..|b| - 1]);
    }
  }

  lemma {:induction false} OneDeclarationARound(req: Request, calls: seq<ToolCall>, m: nat)
    requires m <= |RoundShape(req, calls)|
    ensures Declarations(RoundShape(req, calls)[..m]) == if m == 0 then 0 else 1
  {
    if m == 0 {
    } else {
      var prefix := RoundShape(req, calls)[..m];
      assert prefix[..m - 1] == RoundShape(req, calls)[..m - 1];
      OneDeclarationARound(req, calls, m - 1);
    }
  }

  lemma {:induction false} OneDeclarationAPart(first: seq<Shape>, parts: nat -> seq<Shape>, n: nat)
    requires forall k: nat :: Declarations(parts(k)) == 1
    ensures Declarations(Glue(first, parts, n)) == Declarations(first) + n
  {
    if n == 0 {
    } else {
      OneDeclarationAPart(first, parts, n - 1);
      DeclarationsConcat(Glue(first, parts, n - 1), parts(n - 1));
    }
  }

  lemma {:induction false} OneDeclarationPerIndex(req: Request, script: Script, k: nat)
    ensures Declarations(ShapesUpTo(req, script, k)) == Declarations(Shapes(req.InitialHistory())) + k
  {
    forall i: nat ensures Declarations(RoundShapes(req, script)(i)) == 1 {
      var round := RoundShape(req, Calls(script, i));
      OneDeclarationARound(req, Calls(script, i), |round|);
      assert round[..|round|] == round;
    }
    OneDeclarationAPart(Shapes(req.InitialHistory()), RoundShapes(req, script), k);
  }

  /** The turns appended number loopIndex, or one more when a round was cut after its turn. */
  ghost predicate TurnLaw(req: Request, exit: Exit) {
    Declarations(Shapes(exit.state.history)) ==
    Declarations(Shapes(req.InitialHistory())) + exit.state.loopIndex +
    (if exit.why.AfterTurn() then 1 else 0)
  }

  lemma {:induction false} AssistantTurnsCounted(req: Request, script: Script, exit: Exit)
    requires ExitReason(req, script, exit) && ExitHistory(req, script, exit)
    ensures TurnLaw(req, exit)
  {
    HistoryShape(req, script, exit);
    var n := exit.state.loopIndex;
    OneDeclarationPerIndex(req, script, n);
    var last := RoundShape(req, Calls(script, n));
    var cut := |exit.state.history| - |ShapesUpTo(req, script, n)|;
    OneDeclarationARound(req, Calls(script, n), cut);
    DeclarationsConcat(ShapesUpTo(req, script, n), last[..cut]);
  }

  // ---------- Calls to the model ----------

  /**
    What each model call of the loop was handed: call i got the initial messages and i whole rounds,
    and the tool choice that the tracker of spent pins prescribes. All but a faulting last call
    completed, so their number is loopIndex + 1, or one more.
    */
  ghost predicate SentLaw(req: Request, script: Script, exit: Exit) {
    var n, sent := exit.state.loopIndex, exit.state.sent;
    && |sent| == n + 1 + (if exit.why.AfterCall() then 1 else 0)
    && |sent| <= 1 + MAX_ROUNDS
    && forall i :: 0 <= i < |sent| ==>
         sent[i] == BodyAt(req, PrepareTools(req), script, i)
  }

  lemma {:induction false} FaultingBody(req: Request, script: Script, exit: Exit)
    requires exit.why.AfterCall() && ExitHistory(req, script, exit)
    ensures exit.state.history == HistoryUpTo(req, script, exit.state.loopIndex + 1)
  {
    var n := exit.state.loopIndex;
    var round := WholeRound(req, script, n);
    assert round[..|round|] == round;
    HistoryStep(req, script, n);
  }

  lemma {:induction false} BodiesSent(req: Request, script: Script, exit: Exit)
    requires ExitReason(req, script, exit) && ExitHistory(req, script, exit) && ExitSent(req, script, exit)
    ensures SentLaw(req, script, exit)
  {
    var n, pins := exit.state.loopIndex, PrepareTools(req);
    if exit.why.AfterCall() {
      FaultingBody(req, script, exit);
      SentGrows(req, pins, script, n);
    }
  }

  // ---------- Tokens ----------

  /** The usage of reply i adds up. */
  ghost predicate AddsUp(script: Script, i: nat) {
    var t := UsageTokens(ReplyAt(script, i).usage);
    t.total == t.input + t.output
  }

  /** If the usage of every completed reply adds up, so does their sum. */
  lemma {:induction false} SumAddsUp(script: Script, k: nat)
    requires forall i :: 0 <= i <= k ==> AddsUp(script, i)
    ensures var t := UsageUpTo(script, k); t.total == t.input + t.output
  {
    assert AddsUp(script, k);
    if k == 0 {
    } else {
      SumAddsUp(script, k - 1);
    }
  }

  // ---------- Content ----------

  /** Reply m is the latest of replies 0 to n that carries text. */
  ghost predicate LatestWithText(script: Script, m: nat, n: nat) {
    m <= n && ReplyAt(script, m).Text() != "" && forall i :: m < i <= n ==> ReplyAt(script, i).Text() == ""
  }

  lemma {:induction false} LatestTextIs(script: Script, m: nat, n: nat)
    requires LatestWithText(script, m, n)
    ensures LatestText(script, n) == ReplyAt(script, m).Text()
    decreases n
  {
    if m == n {
    } else {
      LatestTextIs(script, m, n - 1);
    }
  }

  lemma {:induction false} LatestTextEmpty(script: Script, n: nat)
    requires forall i :: 0 <= i <= n ==> ReplyAt(script, i).Text() == ""
    ensures LatestText(script, n) == ""
  {
    if n == 0 {
    } else {
      LatestTextEmpty(script, n - 1);
    }
  }

  /**
    The final content is the raw text of the latest completed reply that carried any; it went
    through the fence trimmer exactly when that reply was the one that hit the cap.
    */
  ghost predicate ContentLaw(script: Script, exit: Exit) {
    var n := exit.state.loopIndex;
    && (forall m: nat :: LatestWithText(script, m, n) ==>
          exit.state.content == if m == MAX_ROUNDS then Trimmed(ReplyAt(script, m).Text())
                                else Raw(ReplyAt(script, m).Text()))
    && ((forall i :: 0 <= i <= n ==> ReplyAt(script, i).Text() == "") ==> exit.state.content == Raw(""))
  }

  lemma {:induction false} ContentProvenance(req: Request, script: Script, exit: Exit)
    requires ExitReason(req, script, exit) && ExitContent(script, exit)
    ensures ContentLaw(script, exit)
  {
    var n := exit.state.loopIndex;
    forall m: nat | LatestWithText(script, m, n)
      ensures exit.state.content == if m == MAX_ROUNDS then Trimmed(ReplyAt(script, m).Text())
                                    else Raw(ReplyAt(script, m).Text())
    {
      LatestTextIs(script, m, n);
    }
    if forall i :: 0 <= i <= n ==> ReplyAt(script, i).Text() == "" {
      LatestTextEmpty(script, n);
    }
  }
}
