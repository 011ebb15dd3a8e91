/**
  One batch of tool calls: the calls run concurrently and settle in any order, then the settled
  slots are folded into the ledgers in declared order.
  */
module ToolBatch {
  import opened Prelude
  import opened Chat

  /** A settled invocation. */
  datatype Invocation = Invocation(call: ToolCall, toolName: string, toolParams: Option<string>, outcome: Outcome,
                                   began: int, finished: int, elapsed: int)

  datatype Slot = Fulfilled(value: Option<Invocation>) | Rejected

  // ---------- Settling one call ----------

  function Failed(call: ToolCall, name: string, message: Option<string>, run: ToolRun): Invocation {
    Invocation(call, name, None, Outcome(false, Undefined, message),
               run.began, run.finished, run.finished - run.began)
  }

  function Settle(req: Request, call: ToolCall, run: ToolRun): Slot {
    match call
    case BareCall(_) => Rejected
    case FunctionCall(_, name, arguments) =>
      if !req.parses(arguments) then Fulfilled(Some(Failed(call, name, Some(run.parseError), run)))
      else if !req.Offers(name) then Fulfilled(None)
      else match run.effect
        case Threw(message) => Fulfilled(Some(Failed(call, name, message, run)))
        case Returned(outcome) =>
          Fulfilled(Some(Invocation(call, name, Some(run.params), outcome,
                                    run.began, run.finished, run.finished - run.began)))
  }

  /** The sequential left-to-right pass that the concurrent dispatch is measured against. */
  function Slots(req: Request, calls: seq<ToolCall>, runs: nat -> ToolRun): (slots: seq<Slot>)
    ensures |slots| == |calls|
    ensures forall i :: 0 <= i < |calls| ==> slots[i] == Settle(req, calls[i], runs(i))
  {
    seq(|calls|, i requires 0 <= i < |calls| => Settle(req, calls[i], runs(i)))
  }

  /** The calls that get a tool turn, a property of the call and the request alone. */
  predicate Answerable(req: Request, call: ToolCall) {
    call.FunctionCall? && (req.parses(call.arguments) ==> req.Offers(call.name))
  }

  // ---------- What a call settles to ----------

  /**
    The record of a function call: its own clock readings, and the failure of parsing its arguments, what
    its run threw, or exactly what its run returned.
    */
  ghost predicate RecordLaw(req: Request, call: ToolCall, run: ToolRun, rec: Invocation) {
    && call.FunctionCall? && rec.call == call && rec.toolName == call.name
    && rec.began == run.began && rec.finished == run.finished && rec.elapsed == run.finished - run.began
    && (!req.parses(call.arguments) ==>
          rec.toolParams == None && rec.outcome == Outcome(false, Undefined, Some(run.parseError)))
    && (req.parses(call.arguments) && run.effect.Threw? ==>
          rec.toolParams == None && rec.outcome == Outcome(false, Undefined, run.effect.message))
    && (req.parses(call.arguments) && run.effect.Returned? ==>
          rec.toolParams == Some(run.params) && rec.outcome == run.effect.outcome)
  }

  /** A call without a function part rejects its slot; one that parses and whose tool is not offered leaves null. */
  ghost predicate SlotLaw(req: Request, call: ToolCall, run: ToolRun, slot: Slot) {
    && (slot.Rejected? <==> call.BareCall?)
    && (slot.Fulfilled? && slot.value.None? <==>
          call.FunctionCall? && req.parses(call.arguments) && forall t :: t in req.Tools() ==> t.id != call.name)
    && (slot.Fulfilled? && slot.value.Some? ==> RecordLaw(req, call, run, slot.value.value))
  }

  lemma {:induction false} SettlesByTheLaw(req: Request, call: ToolCall, run: ToolRun)
    ensures SlotLaw(req, call, run, Settle(req, call, run))
  {
    if call.FunctionCall? {
      assert req.Offers(call.name) <==> exists t :: t in req.Tools() && t.id == call.name;
    }
  }

  /**
    Runs the batch. Every pass of the loop completes some still-open call, whichever it is, so the
    postcondition holds for every order in which the calls complete.
    */
  method DispatchToolBatch(req: Request, calls: seq<ToolCall>, runs: nat -> ToolRun)
    returns (settled: seq<Slot>)
    ensures settled == Slots(req, calls, runs)
    ensures forall i :: 0 <= i < |calls| ==> SlotLaw(req, calls[i], runs(i), settled[i])
  {
    var slots := new Slot[|calls|](_ => Rejected);
    var open: seq<nat> := seq(|calls|, i => i);
    forall i | 0 <= i < |calls| ensures i in open { assert open[i] == i; }
    while open != []
      invariant forall k :: 0 <= k < |open| ==> open[k] < |calls|
      invariant forall i :: 0 <= i < |calls| ==> i in open || slots[i] == Settle(req, calls[i], runs(i))
      decreases |open|
    {
      var k :| 0 <= k < |open|;
      var i := open[k];
      slots[i] := Settle(req, calls[i], runs(i));
      assert forall j :: j in open ==> j == i || j in open[..k] + open[k + 1..];
      open := open[..k] + open[k + 1..];
    }
    settled := slots[..];
    forall i | 0 <= i < |calls| ensures SlotLaw(req, calls[i], runs(i), settled[i]) {
      SettlesByTheLaw(req, calls[i], runs(i));
    }
  }

  // ---------- Folding the slots ----------

  function RecordOf(slot: Slot): Option<Invocation> {
    if slot.Fulfilled? then slot.value else None
  }

  /** The fulfilled, non-null records, in declared order. */
  function Records(settled: seq<Slot>): seq<Invocation> {
    Pick(settled, RecordOf)
  }

  function PayloadOf(rec: Invocation): Payload {
    if rec.outcome.success then
      (match rec.outcome.output
       case Undefined => EmptyObject
       case Value(json) => Passed(json))
    else Failure(rec.outcome.error, rec.toolName)
  }

  function ToolSegment(rec: Invocation): Segment {
    Segment(ToolUse, ToolName(rec.toolName), rec.began, rec.finished, rec.elapsed)
  }

  function EntryOf(rec: Invocation): Entry {
    Entry(rec.toolName, rec.toolParams, rec.began, rec.finished, rec.elapsed, PayloadOf(rec), rec.outcome.success)
  }

  function TurnOf(rec: Invocation): Message {
    ToolTurn(rec.call.id, PayloadOf(rec))
  }

  function ToolSegments(recs: seq<Invocation>): (r: seq<Segment>)
    ensures |r| == |recs|
  {
    seq(|recs|, i requires 0 <= i < |recs| => ToolSegment(recs[i]))
  }

  function Entries(recs: seq<Invocation>): (r: seq<Entry>)
    ensures |r| == |recs|
  {
    seq(|recs|, i requires 0 <= i < |recs| => EntryOf(recs[i]))
  }

  function Turns(recs: seq<Invocation>): (r: seq<Message>)
    ensures |r| == |recs|
  {
    seq(|recs|, i requires 0 <= i < |recs| => TurnOf(recs[i]))
  }

  function OutputOf(rec: Invocation): Option<Output> {
    if rec.outcome.success then Some(rec.outcome.output) else None
  }

  function Outputs(recs: seq<Invocation>): seq<Output> {
    Pick(recs, OutputOf)
  }

  /** How many leading records can be turned into a tool message before JSON.stringify throws. */
  function CleanPrefix(recs: seq<Invocation>): (n: nat)
    ensures n <= |recs|
    ensures forall i :: 0 <= i < n ==> PayloadOf(recs[i]).Serialisable()
    ensures n < |recs| ==> !PayloadOf(recs[n]).Serialisable()
  {
    if recs == [] || !PayloadOf(recs[0]).Serialisable() then 0 else 1 + CleanPrefix(recs[1..])
  }

  /** How many leading records reach the other ledgers: the throwing one included. */
  function Reached(recs: seq<Invocation>): (n: nat)
    ensures CleanPrefix(recs) <= n <= |recs|
    ensures n == if CleanPrefix(recs) < |recs| then CleanPrefix(recs) + 1 else |recs|
  {
    Min(CleanPrefix(recs) + 1, |recs|)
  }

  // ---------- Facts about the batch ----------

  /** CleanPrefix is the only number with its properties. */
  lemma {:induction false} CleanPrefixIs(recs: seq<Invocation>, n: nat)
    requires n <= |recs|
    requires forall i :: 0 <= i < n ==> PayloadOf(recs[i]).Serialisable()
    requires n < |recs| ==> !PayloadOf(recs[n]).Serialisable()
    ensures CleanPrefix(recs) == n
  {
    if n == 0 {
    } else {
      CleanPrefixIs(recs[1..], n - 1);
    }
  }

  function AnswerableId(req: Request): ToolCall -> Option<string> {
    (call: ToolCall) => if Answerable(req, call) then Some(call.id) else None
  }

  function AnswerableIds(req: Request, calls: seq<ToolCall>): seq<string> {
    Pick(calls, AnswerableId(req))
  }

  function RecordIds(recs: seq<Invocation>): (ids: seq<string>)
    ensures |ids| == |recs|
  {
    seq(|recs|, i requires 0 <= i < |recs| => recs[i].call.id)
  }

  /**
    The records that survive are exactly the answerable calls in declared order, whatever the tools
    do and whenever they finish.
    */
  lemma {:induction false} RecordsAreTheAnswerableCalls(req: Request, calls: seq<ToolCall>, runs: nat -> ToolRun)
    ensures RecordIds(Records(Slots(req, calls, runs))) == AnswerableIds(req, calls)
  {
    if calls == [] {
    } else {
      var n := |calls| - 1;
      RecordsAreTheAnswerableCalls(req, calls[..n], runs);
      assert Slots(req, calls, runs)[..n] == Slots(req, calls[..n], runs);
      assert Slots(req, calls, runs)[n] == Settle(req, calls[n], runs(n));
      var before := Records(Slots(req, calls[..n], runs));
      if Answerable(req, calls[n]) {
        var rec := Slots(req, calls, runs)[n].value.value;
        assert Records(Slots(req, calls, runs)) == before + [rec];
        assert rec.call == calls[n];
        assert RecordIds(before + [rec]) == RecordIds(before) + [calls[n].id];
      } else {
        assert Records(Slots(req, calls, runs)) == before;
      }
    }
  }

  // ---------- Which calls are answered, and with what ----------

  /** The positions of the answerable calls. */
  function Positions(req: Request, calls: seq<ToolCall>): (at: seq<nat>)
    ensures forall j :: 0 <= j < |at| ==> at[j] < |calls|
  {
    if calls == [] then []
    else
      var n := |calls| - 1;
      Positions(req, calls[..n]) + (if Answerable(req, calls[n]) then [n] else [])
  }

  /**
    In declared order, they are those of the calls that have a function part, and whose tool is offered or
    whose arguments do not parse.
    */
  lemma {:induction false} PositionsAre(req: Request, calls: seq<ToolCall>)
    ensures var at := Positions(req, calls);
            && (forall j, l :: 0 <= j < l < |at| ==> at[j] < at[l])
            && forall i: nat :: i in at <==>
                 i < |calls| && calls[i].FunctionCall? &&
                 (!req.parses(calls[i].arguments) || exists t :: t in req.Tools() && t.id == calls[i].name)
  {
    if calls == [] {
    } else {
      PositionsAre(req, calls[..|calls| - 1]);
      assert forall name :: req.Offers(name) <==> exists t :: t in req.Tools() && t.id == name;
    }
  }

  /** The j-th record is that of the j-th answerable call: it holds what the run of that call gave. */
  lemma {:induction false} RecordsHoldTheirRuns(req: Request, calls: seq<ToolCall>, runs: nat -> ToolRun)
    ensures var recs, at := Records(Slots(req, calls, runs)), Positions(req, calls);
            |recs| == |at| && forall j :: 0 <= j < |at| ==> RecordLaw(req, calls[at[j]], runs(at[j]), recs[j])
  {
    if calls == [] {
    } else {
      var n := |calls| - 1;
      RecordsHoldTheirRuns(req, calls[..n], runs);
      assert Slots(req, calls, runs)[..n] == Slots(req, calls[..n], runs);
      assert Slots(req, calls, runs)[n] == Settle(req, calls[n], runs(n));
      SettlesByTheLaw(req, calls[n], runs(n));
    }
  }
}
