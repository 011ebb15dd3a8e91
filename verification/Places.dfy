/**
  Where the calls of a run stand, and what each leaves behind: every entry, segment and message of the
  closed form is placed by the call that it belongs to.
  */
module Places {
  import opened Prelude
  import opened Chat
  import opened ToolBatch
  import opened ToolLoop

  // ---------- Reading a reply ----------

  /** The calls that reply k declares. */
  function DeclaredAt(script: Script, k: nat): seq<ToolCall> {
    match AnswerOf(script, k) case Some(Reply(_, Some(calls), _)) => calls case _ => []
  }

  /** The text of reply k. */
  function TextAt(script: Script, k: nat): string {
    match AnswerOf(script, k) case Some(Reply(Some(text), _, _)) => text case _ => ""
  }

  function UsageAt(script: Script, k: nat): Option<Usage> {
    match AnswerOf(script, k)
    case Some(Reply(_, _, usage)) => usage
    case Some(NoChoices(usage)) => usage
    case None => None
  }

  lemma {:induction false} ReadingIs(script: Script, k: nat)
    ensures DeclaredAt(script, k) == Calls(script, k) && TextAt(script, k) == ReplyAt(script, k).Text()
    ensures UsageAt(script, k) == ReplyAt(script, k).usage
  {
  }

  // ---------- The answerable calls of a run ----------

  /** The call at this position of reply round. */
  datatype Place = Place(round: nat, call: nat)

  ghost predicate Earlier(p: Place, q: Place) {
    p.round < q.round || (p.round == q.round && p.call < q.call)
  }

  /** The calls of reply k that get an answer. */
  function RoundPlaces(req: Request, script: Script, k: nat): (places: seq<Place>)
    ensures |places| == |Positions(req, Calls(script, k))|
  {
    var at := Positions(req, Calls(script, k));
    seq(|at|, j requires 0 <= j < |at| => Place(k, at[j]))
  }

  /** Those of replies 0 to n - 1. */
  function PlacesUpTo(req: Request, script: Script, n: nat): seq<Place> {
    if n == 0 then [] else PlacesUpTo(req, script, n - 1) + RoundPlaces(req, script, n - 1)
  }

  /** The replies 0 to n - 1 and the first m answerable calls of reply n. */
  function Folded(req: Request, script: Script, n: nat, m: nat): seq<Place>
    requires m <= |RoundPlaces(req, script, n)|
  {
    PlacesUpTo(req, script, n) + RoundPlaces(req, script, n)[..m]
  }

  ghost predicate Stands(script: Script, p: Place) {
    p.call < |DeclaredAt(script, p.round)|
  }

  ghost predicate AllStand(script: Script, places: seq<Place>) {
    forall j :: 0 <= j < |places| ==> Stands(script, places[j])
  }

  function CallAt(script: Script, p: Place): ToolCall
    requires Stands(script, p)
  {
    DeclaredAt(script, p.round)[p.call]
  }

  function RunAt(script: Script, p: Place): ToolRun {
    script.rounds(p.round).runs(p.call)
  }

  /** A function call whose tool is offered, or whose arguments do not parse. */
  ghost predicate GetsAnAnswer(req: Request, call: ToolCall) {
    call.FunctionCall? && (!req.parses(call.arguments) || exists t :: t in req.Tools() && t.id == call.name)
  }

  /** They stand in order, and they are all of them. */
  lemma {:induction false} PlacesAre(req: Request, script: Script, n: nat)
    ensures var places := PlacesUpTo(req, script, n);
            && AllStand(script, places)
            && (forall j, l :: 0 <= j < l < |places| ==> Earlier(places[j], places[l]))
            && forall p :: p in places <==> p.round < n && Stands(script, p) && GetsAnAnswer(req, CallAt(script, p))
  {
    if n == 0 {
    } else {
      PlacesAre(req, script, n - 1);
      RoundPlacesAre(req, script, n - 1);
    }
  }

  lemma {:induction false} RoundPlacesAre(req: Request, script: Script, k: nat)
    ensures var places := RoundPlaces(req, script, k);
            && AllStand(script, places)
            && (forall j, l :: 0 <= j < l < |places| ==> Earlier(places[j], places[l]))
            && forall p :: p in places <==> p.round == k && Stands(script, p) && GetsAnAnswer(req, CallAt(script, p))
  {
    var at, places := Positions(req, Calls(script, k)), RoundPlaces(req, script, k);
    PositionsAre(req, Calls(script, k));
    forall p ensures p in places <==> p.round == k && p.call in at {
      if p.round == k && p.call in at {
        var j :| 0 <= j < |at| && at[j] == p.call;
        assert places[j] == p;
      }
    }
  }

  // ---------- What a call leaves behind ----------

  /** The tool ran and said that it succeeded. */
  ghost predicate Succeeds(req: Request, call: ToolCall, run: ToolRun) {
    call.FunctionCall? && req.parses(call.arguments) && run.effect.Returned? && run.effect.outcome.success
  }

  /** Its answer can be serialised. */
  ghost predicate Writes(req: Request, call: ToolCall, run: ToolRun) {
    Succeeds(req, call, run) ==> run.effect.outcome.output != Value(None)
  }

  /** The JSON that the run returned, an empty object for a success without output, or the error and the tool. */
  ghost predicate PayloadLaw(req: Request, call: ToolCall, run: ToolRun, p: Payload) {
    && call.FunctionCall?
    && (!req.parses(call.arguments) ==> p == Failure(Some(run.parseError), call.name))
    && (req.parses(call.arguments) && run.effect.Threw? ==> p == Failure(run.effect.message, call.name))
    && (req.parses(call.arguments) && run.effect.Returned? ==>
          var o := run.effect.outcome;
          && (!o.success ==> p == Failure(o.error, call.name))
          && (o.success && o.output == Undefined ==> p == EmptyObject)
          && (o.success && o.output.Value? ==> p == Passed(o.output.json)))
  }

  ghost predicate EntryLaw(req: Request, call: ToolCall, run: ToolRun, e: Entry) {
    && call.FunctionCall? && e.name == call.name
    && e.arguments == (if req.parses(call.arguments) && run.effect.Returned? then Some(run.params) else None)
    && e.start == run.began && e.end == run.finished && e.duration == run.finished - run.began
    && PayloadLaw(req, call, run, e.result) && (e.success <==> Succeeds(req, call, run))
  }

  lemma {:induction false} RecordLeaves(req: Request, call: ToolCall, run: ToolRun, rec: Invocation)
    requires RecordLaw(req, call, run, rec)
    ensures EntryLaw(req, call, run, EntryOf(rec)) && PayloadLaw(req, call, run, PayloadOf(rec))
    ensures PayloadOf(rec).Serialisable() <==> Writes(req, call, run)
    ensures OutputOf(rec) == if Succeeds(req, call, run) then Some(run.effect.outcome.output) else None
  {
  }

  ghost predicate EntriesLaw(req: Request, script: Script, places: seq<Place>, entries: seq<Entry>) {
    |entries| == |places| && AllStand(script, places) &&
    forall j :: 0 <= j < |places| ==> EntryLaw(req, CallAt(script, places[j]), RunAt(script, places[j]), entries[j])
  }

  /** What the run at a place put out, if it succeeded. */
  ghost function OutputAt(req: Request, script: Script): Place -> Option<Output> {
    (p: Place) =>
      if Stands(script, p) && Succeeds(req, CallAt(script, p), RunAt(script, p))
      then Some(RunAt(script, p).effect.outcome.output) else None
  }

  /** The records at the places of round k, the first m of them. */
  ghost predicate RecordsAt(req: Request, script: Script, places: seq<Place>, recs: seq<Invocation>) {
    |recs| == |places| && AllStand(script, places) &&
    forall j :: 0 <= j < |places| ==> RecordLaw(req, CallAt(script, places[j]), RunAt(script, places[j]), recs[j])
  }

  lemma {:induction false} RoundRecordsAt(req: Request, script: Script, k: nat)
    ensures RecordsAt(req, script, RoundPlaces(req, script, k), RoundRecords(req, script, k))
  {
    RecordsHoldTheirRuns(req, Calls(script, k), script.rounds(k).runs);
  }

  lemma {:induction false} FirstRecordsAt(req: Request, script: Script, k: nat, m: nat)
    requires m <= |RoundPlaces(req, script, k)|
    ensures |RoundRecords(req, script, k)| == |RoundPlaces(req, script, k)|
    ensures RecordsAt(req, script, RoundPlaces(req, script, k)[..m], RoundRecords(req, script, k)[..m])
  {
    RoundRecordsAt(req, script, k);
  }

  lemma {:induction false} EntriesOfRecords(req: Request, script: Script, places: seq<Place>, recs: seq<Invocation>)
    requires RecordsAt(req, script, places, recs)
    ensures EntriesLaw(req, script, places, Entries(recs))
  {
    forall j | 0 <= j < |places|
      ensures EntryLaw(req, CallAt(script, places[j]), RunAt(script, places[j]), Entries(recs)[j])
    {
      RecordLeaves(req, CallAt(script, places[j]), RunAt(script, places[j]), recs[j]);
    }
  }

  lemma {:induction false} EntriesConcat(req: Request, script: Script, a: seq<Place>, e: seq<Entry>, b: seq<Place>, f: seq<Entry>)
    requires EntriesLaw(req, script, a, e) && EntriesLaw(req, script, b, f)
    ensures EntriesLaw(req, script, a + b, e + f)
  {
    forall j | 0 <= j < |a + b|
      ensures Stands(script, (a + b)[j])
      ensures EntryLaw(req, CallAt(script, (a + b)[j]), RunAt(script, (a + b)[j]), (e + f)[j])
    {
      if j < |a| {
        assert (a + b)[j] == a[j] && (e + f)[j] == e[j];
      } else {
        assert (a + b)[j] == b[j - |a|] && (e + f)[j] == f[j - |a|];
      }
    }
  }

  lemma {:induction false} EntriesGrow(req: Request, script: Script, places: seq<Place>, entries: seq<Entry>,
                                       more: seq<Place>, recs: seq<Invocation>)
    requires EntriesLaw(req, script, places, entries) && RecordsAt(req, script, more, recs)
    ensures EntriesLaw(req, script, places + more, entries + Entries(recs))
  {
    EntriesOfRecords(req, script, more, recs);
    EntriesConcat(req, script, places, entries, more, Entries(recs));
  }

  lemma {:induction false} EntriesUpToLaw(req: Request, script: Script, n: nat)
    ensures EntriesLaw(req, script, PlacesUpTo(req, script, n), EntriesUpTo(req, script, n))
  {
    if n == 0 {
    } else {
      EntriesUpToLaw(req, script, n - 1);
      RoundRecordsAt(req, script, n - 1);
      EntriesGrow(req, script, PlacesUpTo(req, script, n - 1), EntriesUpTo(req, script, n - 1),
                  RoundPlaces(req, script, n - 1), RoundRecords(req, script, n - 1));
    }
  }

  lemma {:induction false} OutputsAtPlaces(req: Request, script: Script, places: seq<Place>, recs: seq<Invocation>)
    requires RecordsAt(req, script, places, recs)
    ensures Outputs(recs) == Pick(places, OutputAt(req, script))
  {
    forall j | 0 <= j < |places| ensures OutputOf(recs[j]) == OutputAt(req, script)(places[j]) {
      RecordLeaves(req, CallAt(script, places[j]), RunAt(script, places[j]), recs[j]);
    }
    PickSame(recs, OutputOf, places, OutputAt(req, script));
  }

  ghost predicate OutputsTold(req: Request, script: Script, n: nat) {
    OutputsUpTo(req, script, n) == Pick(PlacesUpTo(req, script, n), OutputAt(req, script))
  }

  lemma {:induction false} FirstOutputs(req: Request, script: Script)
    ensures OutputsTold(req, script, 0)
  {
  }

  lemma {:induction false} NextOutputs(req: Request, script: Script, n: nat)
    requires OutputsTold(req, script, n)
    ensures OutputsTold(req, script, n + 1)
  {
    RoundRecordsAt(req, script, n);
    OutputsAtPlaces(req, script, RoundPlaces(req, script, n), RoundRecords(req, script, n));
    PickConcat(PlacesUpTo(req, script, n), RoundPlaces(req, script, n), OutputAt(req, script));
  }

  lemma {:induction false} OutputsUpToLaw(req: Request, script: Script, n: nat)
    ensures OutputsTold(req, script, n)
  {
    var i := 0;
    FirstOutputs(req, script);
    while i < n
      invariant i <= n && OutputsTold(req, script, i)
    {
      NextOutputs(req, script, i);
      i := i + 1;
    }
  }

  // ---------- The trace ----------

  /** The segment of plain call k. */
  function ModelSegmentAt(script: Script, k: nat): Segment {
    if k == 0
    then Segment(Model, InitialResponse, script.callT0, script.firstEnd, script.firstEnd - script.callT0)
    else
      var env := script.rounds(k - 1);
      Segment(Model, ModelResponse(k), env.modelT0, env.modelEnd, env.modelEnd - env.modelT0)
  }

  ghost predicate IsToolSegment(call: ToolCall, run: ToolRun, s: Segment) {
    call.FunctionCall? && s == Segment(ToolUse, ToolName(call.name), run.began, run.finished, run.finished - run.began)
  }

  /** The elements k < n that stand at their indexes. */
  ghost predicate Placed<T>(at: nat -> nat, what: nat -> T, n: nat, s: seq<T>) {
    forall k :: 0 <= k < n ==> at(k) < |s| && s[at(k)] == what(k)
  }

  lemma {:induction false} PlacedStay<T>(at: nat -> nat, what: nat -> T, n: nat, s: seq<T>, more: seq<T>)
    requires Placed(at, what, n, s)
    ensures Placed(at, what, n, s + more)
  {
  }

  lemma {:induction false} PlacedNext<T>(at: nat -> nat, what: nat -> T, n: nat, s: seq<T>)
    requires Placed(at, what, n, s) && at(n) == |s|
    ensures Placed(at, what, n + 1, s + [what(n)])
  {
    PlacedStay(at, what, n, s, [what(n)]);
    assert (s + [what(n)])[|s|] == what(n);
  }

  /** Call k stands behind the tools of the replies before it. */
  function CallIndex(req: Request, script: Script): nat -> nat {
    (k: nat) => |PlacesUpTo(req, script, k)| + k
  }

  function CallSegments(script: Script): nat -> Segment {
    (k: nat) => ModelSegmentAt(script, k)
  }

  /** A tool of reply k stands behind k + 1 calls. */
  ghost predicate ToolsPlaced(script: Script, n: nat, places: seq<Place>, trace: seq<Segment>) {
    AllStand(script, places) &&
    forall j :: 0 <= j < |places| ==>
      places[j].round <= n && j + places[j].round + 1 < |trace| &&
      IsToolSegment(CallAt(script, places[j]), RunAt(script, places[j]), trace[j + places[j].round + 1])
  }

  /** n + 1 answered calls, each followed by the tools that its reply called. */
  ghost predicate TraceLaw(req: Request, script: Script, n: nat, places: seq<Place>, trace: seq<Segment>) {
    && |trace| == n + 1 + |places|
    && Placed(CallIndex(req, script), CallSegments(script), n + 1, trace) && ToolsPlaced(script, n, places, trace)
  }

  lemma {:induction false} ToolsStay(script: Script, n: nat, places: seq<Place>, trace: seq<Segment>, more: seq<Segment>)
    requires ToolsPlaced(script, n, places, trace)
    ensures ToolsPlaced(script, n, places, trace + more) && ToolsPlaced(script, n + 1, places, trace + more)
  {
  }

  /** Tools of reply n, behind a trace of n + 1 calls. */
  lemma {:induction false} ToolsFollow(req: Request, script: Script, n: nat, places: seq<Place>, trace: seq<Segment>,
                                       more: seq<Place>, recs: seq<Invocation>)
    requires ToolsPlaced(script, n, places, trace) && |trace| == n + 1 + |places|
    requires RecordsAt(req, script, more, recs) && forall j :: 0 <= j < |more| ==> more[j].round == n
    ensures ToolsPlaced(script, n, places + more, trace + ToolSegments(recs))
  {
    ToolsStay(script, n, places, trace, ToolSegments(recs));
    forall j | |places| <= j < |places + more|
      ensures
        var p := (places + more)[j];
        Stands(script, p) && p.round == n &&
        IsToolSegment(CallAt(script, p), RunAt(script, p), (trace + ToolSegments(recs))[j + n + 1])
    {
      var l := j - |places|;
      assert RecordLaw(req, CallAt(script, more[l]), RunAt(script, more[l]), recs[l]);
      assert (trace + ToolSegments(recs))[j + n + 1] == ToolSegments(recs)[l];
    }
  }

  lemma {:induction false} RoundFollows(req: Request, script: Script, n: nat, m: nat, trace: seq<Segment>)
    requires m <= |RoundPlaces(req, script, n)|
    requires TraceLaw(req, script, n, PlacesUpTo(req, script, n), trace)
    ensures |RoundRecords(req, script, n)| == |RoundPlaces(req, script, n)|
    ensures TraceLaw(req, script, n, Folded(req, script, n, m), trace + ToolSegments(RoundRecords(req, script, n)[..m]))
  {
    FirstRecordsAt(req, script, n, m);
    var more, recs := RoundPlaces(req, script, n)[..m], RoundRecords(req, script, n)[..m];
    ToolsFollow(req, script, n, PlacesUpTo(req, script, n), trace, more, recs);
    PlacedStay(CallIndex(req, script), CallSegments(script), n + 1, trace, ToolSegments(recs));
  }

  lemma {:induction false} CallFollows(req: Request, script: Script, n: nat, trace: seq<Segment>)
    requires TraceLaw(req, script, n, PlacesUpTo(req, script, n + 1), trace)
    ensures TraceLaw(req, script, n + 1, PlacesUpTo(req, script, n + 1), trace + [ModelSegmentAt(script, n + 1)])
  {
    var places, more := PlacesUpTo(req, script, n + 1), [ModelSegmentAt(script, n + 1)];
    ToolsStay(script, n, places, trace, more);
    PlacedNext(CallIndex(req, script), CallSegments(script), n + 1, trace);
  }

  lemma {:induction false} FirstTrace(req: Request, script: Script)
    ensures TraceLaw(req, script, 0, PlacesUpTo(req, script, 0), TraceUpTo(req, script, 0))
  {
  }

  lemma {:induction false} NextTraceIs(req: Request, script: Script, n: nat)
    ensures TraceUpTo(req, script, n + 1) ==
            TraceUpTo(req, script, n) + ToolSegments(RoundRecords(req, script, n)) + [ModelSegmentAt(script, n + 1)]
  {
  }

  lemma {:induction false} TraceUpToLaw(req: Request, script: Script, n: nat)
    ensures TraceLaw(req, script, n, PlacesUpTo(req, script, n), TraceUpTo(req, script, n))
  {
    var i := 0;
    FirstTrace(req, script);
    while i < n
      invariant i <= n && TraceLaw(req, script, i, PlacesUpTo(req, script, i), TraceUpTo(req, script, i))
    {
      NextTraceLaw(req, script, i);
      i := i + 1;
    }
  }

  lemma {:induction false} NextTraceLaw(req: Request, script: Script, n: nat)
    requires TraceLaw(req, script, n, PlacesUpTo(req, script, n), TraceUpTo(req, script, n))
    ensures TraceLaw(req, script, n + 1, PlacesUpTo(req, script, n + 1), TraceUpTo(req, script, n + 1))
  {
    var trace, recs, m := TraceUpTo(req, script, n), RoundRecords(req, script, n), |RoundPlaces(req, script, n)|;
    RoundFollows(req, script, n, m, trace);
    WholeRoundFolded(req, script, n);
    assert recs[..m] == recs;
    CallFollows(req, script, n, trace + ToolSegments(recs));
    NextTraceIs(req, script, n);
  }

  lemma {:induction false} WholeRoundFolded(req: Request, script: Script, n: nat)
    ensures Folded(req, script, n, |RoundPlaces(req, script, n)|) == PlacesUpTo(req, script, n + 1)
    ensures Folded(req, script, n, 0) == PlacesUpTo(req, script, n)
  {
    var round := RoundPlaces(req, script, n);
    assert round[..|round|] == round;
  }

  // ---------- The conversation ----------

  /** How many messages stand before those of the request. */
  function Preamble(req: Request): nat {
    (if req.systemPrompt != "" then 1 else 0) + (if req.context != "" then 1 else 0)
  }

  /** The system prompt, the context and the messages of the request, those that are there, in this order. */
  ghost predicate Opens(req: Request, messages: seq<Message>) {
    var l := Preamble(req);
    && l + |req.messages| <= |messages|
    && (req.systemPrompt != "" ==> messages[0] == Plain(SystemRole, req.systemPrompt))
    && (req.context != "" ==> messages[l - 1] == Plain(UserRole, req.context))
    && messages[l..l + |req.messages|] == req.messages
  }

  function Opening(req: Request): nat {
    Preamble(req) + |req.messages|
  }

  ghost predicate IsToolTurn(req: Request, call: ToolCall, run: ToolRun, m: Message) {
    m.ToolTurn? && call.FunctionCall? && m.callId == call.id && PayloadLaw(req, call, run, m.payload)
  }

  /** Turn k stands behind the answers to the replies before it, and declares the calls of reply k. */
  function TurnIndex(req: Request, script: Script): nat -> nat {
    (k: nat) => Opening(req) + |PlacesUpTo(req, script, k)| + k
  }

  function Declarations(script: Script): nat -> Message {
    (k: nat) => AssistantTurn(DeclaredAt(script, k))
  }

  /** The answer to a call of reply k stands behind k + 1 turns. */
  ghost predicate AnswersPlaced(req: Request, script: Script, n: nat, places: seq<Place>, messages: seq<Message>) {
    AllStand(script, places) &&
    forall j :: 0 <= j < |places| ==>
      var i := Opening(req) + j + places[j].round + 1;
      places[j].round < n && i < |messages| &&
      IsToolTurn(req, CallAt(script, places[j]), RunAt(script, places[j]), messages[i])
  }

  /** The opening, then n turns of the model, each followed by the answers to its calls. */
  ghost predicate Conversation(req: Request, script: Script, n: nat, places: seq<Place>, messages: seq<Message>) {
    && |messages| == Opening(req) + n + |places| && Opens(req, messages)
    && Placed(TurnIndex(req, script), Declarations(script), n, messages) && AnswersPlaced(req, script, n, places, messages)
  }

  lemma {:induction false} InitialOpens(req: Request)
    ensures |req.InitialHistory()| == Opening(req) && Opens(req, req.InitialHistory())
  {
    var l, opening := Preamble(req), req.InitialHistory();
    assert |opening| == l + |req.messages|;
    assert opening[l..] == req.messages && opening[l..l + |req.messages|] == opening[l..];
  }

  lemma {:induction false} OpensStays(req: Request, messages: seq<Message>, more: seq<Message>)
    requires Opens(req, messages)
    ensures Opens(req, messages + more)
  {
    var l := Preamble(req);
    assert (messages + more)[l..l + |req.messages|] == messages[l..l + |req.messages|];
  }

  lemma {:induction false} AnswersStay(req: Request, script: Script, n: nat, places: seq<Place>,
                                       messages: seq<Message>, more: seq<Message>)
    requires AnswersPlaced(req, script, n, places, messages)
    ensures AnswersPlaced(req, script, n, places, messages + more)
    ensures AnswersPlaced(req, script, n + 1, places, messages + more)
  {
  }

  lemma {:induction false} TurnDeclared(req: Request, script: Script, n: nat, messages: seq<Message>)
    requires Conversation(req, script, n, PlacesUpTo(req, script, n), messages)
    ensures Conversation(req, script, n + 1, PlacesUpTo(req, script, n),
                         messages + [AssistantTurn(DeclaredAt(script, n))])
  {
    var places, more := PlacesUpTo(req, script, n), [AssistantTurn(DeclaredAt(script, n))];
    OpensStays(req, messages, more);
    PlacedNext(TurnIndex(req, script), Declarations(script), n, messages);
    AnswersStay(req, script, n, places, messages, more);
  }

  lemma {:induction false} TurnOfRecord(req: Request, script: Script, p: Place, rec: Invocation)
    requires Stands(script, p) && RecordLaw(req, CallAt(script, p), RunAt(script, p), rec)
    ensures IsToolTurn(req, CallAt(script, p), RunAt(script, p), TurnOf(rec))
  {
    RecordLeaves(req, CallAt(script, p), RunAt(script, p), rec);
  }

  lemma {:induction false} AnswersFollow(req: Request, script: Script, n: nat, places: seq<Place>, messages: seq<Message>,
                                         more: seq<Place>, recs: seq<Invocation>)
    requires AnswersPlaced(req, script, n + 1, places, messages) && |messages| == Opening(req) + n + 1 + |places|
    requires RecordsAt(req, script, more, recs) && forall j :: 0 <= j < |more| ==> more[j].round == n
    ensures AnswersPlaced(req, script, n + 1, places + more, messages + Turns(recs))
  {
    var last := messages + Turns(recs);
    AnswersStay(req, script, n + 1, places, messages, Turns(recs));
    forall l | 0 <= l < |more|
      ensures IsToolTurn(req, CallAt(script, more[l]), RunAt(script, more[l]), last[|messages| + l])
    {
      TurnOfRecord(req, script, more[l], recs[l]);
      assert last[|messages| + l] == Turns(recs)[l];
    }
    NewAnswers(req, script, n, places, messages, more, last);
  }

  lemma {:induction false} NewAnswers(req: Request, script: Script, n: nat, places: seq<Place>, messages: seq<Message>,
                                      more: seq<Place>, last: seq<Message>)
    requires AnswersPlaced(req, script, n + 1, places, last)
    requires |last| == |messages| + |more| && |messages| == Opening(req) + n + 1 + |places|
    requires AllStand(script, more) && forall l :: 0 <= l < |more| ==> more[l].round == n
    requires forall l :: 0 <= l < |more| ==>
               IsToolTurn(req, CallAt(script, more[l]), RunAt(script, more[l]), last[|messages| + l])
    ensures AnswersPlaced(req, script, n + 1, places + more, last)
  {
    forall j | |places| <= j < |places + more|
      ensures
        var p := (places + more)[j];
        Stands(script, p) && p.round == n && Opening(req) + j + n + 1 < |last| &&
        IsToolTurn(req, CallAt(script, p), RunAt(script, p), last[Opening(req) + j + n + 1])
    {
      assert (places + more)[j] == more[j - |places|];
      assert Opening(req) + j + n + 1 == |messages| + (j - |places|);
    }
  }

  /** The first m answers to reply n, behind its turn. */
  lemma {:induction false} RoundSpoken(req: Request, script: Script, n: nat, m: nat, messages: seq<Message>)
    requires m <= |RoundPlaces(req, script, n)|
    requires Conversation(req, script, n, PlacesUpTo(req, script, n), messages)
    ensures |RoundRecords(req, script, n)| == |RoundPlaces(req, script, n)|
    ensures Conversation(req, script, n + 1, Folded(req, script, n, m),
                         messages + [AssistantTurn(Calls(script, n))] + Turns(RoundRecords(req, script, n)[..m]))
  {
    FirstRecordsAt(req, script, n, m);
    TurnDeclared(req, script, n, messages);
    AnswersSpoken(req, script, n, PlacesUpTo(req, script, n), messages + [AssistantTurn(Calls(script, n))],
                  RoundPlaces(req, script, n)[..m], RoundRecords(req, script, n)[..m]);
  }

  lemma {:induction false} AnswersSpoken(req: Request, script: Script, n: nat, places: seq<Place>, messages: seq<Message>,
                                         more: seq<Place>, recs: seq<Invocation>)
    requires Conversation(req, script, n + 1, places, messages)
    requires RecordsAt(req, script, more, recs) && forall j :: 0 <= j < |more| ==> more[j].round == n
    ensures Conversation(req, script, n + 1, places + more, messages + Turns(recs))
  {
    OpensStays(req, messages, Turns(recs));
    PlacedStay(TurnIndex(req, script), Declarations(script), n + 1, messages, Turns(recs));
    AnswersFollow(req, script, n, places, messages, more, recs);
  }

  lemma {:induction false} FirstHistoryLaw(req: Request, script: Script)
    ensures Conversation(req, script, 0, PlacesUpTo(req, script, 0), HistoryUpTo(req, script, 0))
  {
    InitialOpens(req);
  }

  lemma {:induction false} HistoryLawUpTo(req: Request, script: Script, n: nat)
    ensures Conversation(req, script, n, PlacesUpTo(req, script, n), HistoryUpTo(req, script, n))
  {
    var i := 0;
    FirstHistoryLaw(req, script);
    while i < n
      invariant i <= n && Conversation(req, script, i, PlacesUpTo(req, script, i), HistoryUpTo(req, script, i))
    {
      NextHistoryLaw(req, script, i);
      i := i + 1;
    }
  }

  lemma {:induction false} NextHistoryLaw(req: Request, script: Script, n: nat)
    requires Conversation(req, script, n, PlacesUpTo(req, script, n), HistoryUpTo(req, script, n))
    ensures Conversation(req, script, n + 1, PlacesUpTo(req, script, n + 1), HistoryUpTo(req, script, n + 1))
  {
    var recs, m := RoundRecords(req, script, n), |RoundPlaces(req, script, n)|;
    RoundSpoken(req, script, n, m, HistoryUpTo(req, script, n));
    WholeRoundFolded(req, script, n);
    assert recs[..m] == recs;
    NextHistoryIs(req, script, n);
  }

  lemma {:induction false} NextHistoryIs(req: Request, script: Script, n: nat)
    ensures HistoryUpTo(req, script, n + 1) ==
            HistoryUpTo(req, script, n) + [AssistantTurn(Calls(script, n))] + Turns(RoundRecords(req, script, n))
  {
  }
}
