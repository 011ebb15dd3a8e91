/**
  Pinned (forced) tools: which tool_choice each model call is sent, and how the tracker of spent
  pins moves over a whole run.
  */
module ToolChoice {
  import opened Prelude
  import opened Chat

  // ---------- Preparing the tools ----------

  function Find(tools: seq<Tool>, id: string): Option<Tool> {
    if tools == [] then None
    else if tools[0].id == id then Some(tools[0])
    else Find(tools[1..], id)
  }

  /** A tool is sent unless the first tool configured under its non-empty id is suppressed. */
  predicate Permitted(tools: seq<Tool>, t: Tool) {
    t.id == "" || Find(tools, t.id) != Some(Tool(t.id, Suppressed))
  }

  function ForcedId(t: Tool): Option<string> {
    if t.control == Forced then Some(t.id) else None
  }

  /** One of the first n tools is permitted. */
  predicate SomePermitted(tools: seq<Tool>, n: nat)
    requires n <= |tools|
  {
    n > 0 && (Permitted(tools, tools[n - 1]) || SomePermitted(tools, n - 1))
  }

  predicate AnyPermitted(req: Request) {
    SomePermitted(req.Tools(), |req.Tools()|)
  }

  /** The tool_choice of the base body, and the list of pinned tools. */
  datatype Pins = Pins(original: Choice, pinned: seq<string>)

  function PrepareTools(req: Request): (pins: Pins)
    ensures Coherent(pins)
  {
    if !AnyPermitted(req) then Pins(Unset, [])
    else
      var forced := Pick(req.Tools(), ForcedId);
      Pins(if forced == [] then Auto else Pin(forced[0]), forced)
  }

  lemma {:induction false} FindIs(tools: seq<Tool>, id: string, i: nat)
    requires i < |tools| && tools[i].id == id && forall j :: 0 <= j < i ==> tools[j].id != id
    ensures Find(tools, id) == Some(tools[i])
  {
    if i == 0 {
    } else {
      FindIs(tools[1..], id, i - 1);
    }
  }

  lemma {:induction false} SomePermittedIff(tools: seq<Tool>, n: nat)
    requires n <= |tools|
    ensures SomePermitted(tools, n) <==> exists i :: 0 <= i < n && Permitted(tools, tools[i])
  {
    if n == 0 {
    } else {
      SomePermittedIff(tools, n - 1);
    }
  }

  /** The tool at i is configured under an id that an earlier or the same tool suppresses first. */
  ghost predicate SuppressedAt(tools: seq<Tool>, i: nat)
    requires i < |tools|
  {
    tools[i].id != "" &&
    exists j :: 0 <= j <= i && tools[j] == Tool(tools[i].id, Suppressed) && forall k :: 0 <= k < j ==> tools[k].id != tools[i].id
  }

  lemma {:induction false} PermittedIff(tools: seq<Tool>, i: nat)
    requires i < |tools|
    ensures Permitted(tools, tools[i]) <==> !SuppressedAt(tools, i)
  {
    var j := FirstWithId(tools, tools[i].id, i);
    FindIs(tools, tools[i].id, j);
  }

  lemma {:induction false} FirstWithId(tools: seq<Tool>, id: string, i: nat) returns (j: nat)
    requires i < |tools| && tools[i].id == id
    ensures j <= i && tools[j].id == id && forall k :: 0 <= k < j ==> tools[k].id != id
  {
    j := i;
    if k :| 0 <= k < i && tools[k].id == id {
      j := FirstWithId(tools, id, k);
    }
  }

  /** Each forced tool in its place, and no other one. */
  ghost predicate ForcedAt(tools: seq<Tool>, ids: seq<string>, at: seq<nat>) {
    && |at| == |ids| && (forall j :: 0 <= j < |at| ==> at[j] < |tools| && tools[at[j]].id == ids[j])
    && (forall j, l :: 0 <= j < l < |at| ==> at[j] < at[l])
    && forall i: nat :: i in at <==> i < |tools| && tools[i].control == Forced
  }

  lemma {:induction false} ForcedNext(tools: seq<Tool>, last: Tool, ids: seq<string>, at: seq<nat>)
    requires ForcedAt(tools, ids, at)
    ensures last.control == Forced ==> ForcedAt(tools + [last], ids + [last.id], at + [|tools|])
    ensures last.control != Forced ==> ForcedAt(tools + [last], ids, at)
  {
    assert forall i: nat :: i < |tools| ==> (tools + [last])[i] == tools[i];
    assert forall i: nat :: i in at + [|tools|] <==> i in at || i == |tools|;
  }

  lemma {:induction false} ForcedIdsAre(tools: seq<Tool>) returns (at: seq<nat>)
    ensures ForcedAt(tools, Pick(tools, ForcedId), at)
  {
    if tools == [] {
      at := [];
    } else {
      var init, last := tools[..|tools| - 1], tools[|tools| - 1];
      at := ForcedIdsAre(init);
      assert tools == init + [last];
      ForcedNext(init, last, Pick(init, ForcedId), at);
      if last.control == Forced {
        at := at + [|init|];
      }
    }
  }

  /**
    The base body: without a choice exactly when every tool is suppressed, else pinned to the first
    forced tool, or auto without one. The forced tools stand in their order.
    */
  lemma {:induction false} PreparedChoice(req: Request)
    ensures var pins, tools := PrepareTools(req), req.Tools();
            && (pins.original == Unset <==> forall i :: 0 <= i < |tools| ==> SuppressedAt(tools, i))
            && (pins.original != Unset ==> exists at :: ForcedAt(tools, pins.pinned, at))
            && (pins.original == Unset ==> pins.pinned == [])
            && (pins.pinned != [] ==> pins.original == Pin(pins.pinned[0]))
            && (pins.original == Auto ==> pins.pinned == [])
  {
    var tools := req.Tools();
    var at := ForcedIdsAre(tools);
    SomePermittedIff(tools, |tools|);
    forall i | 0 <= i < |tools| ensures Permitted(tools, tools[i]) <==> !SuppressedAt(tools, i) {
      PermittedIff(tools, i);
    }
  }

  predicate Coherent(pins: Pins) {
    if pins.pinned == [] then !pins.original.Pin? else pins.original == Pin(pins.pinned[0])
  }

  // ---------- The tracker ----------

  datatype Tracker = Tracker(activated: bool, spent: seq<string>)

  const FRESH := Tracker(false, [])

  function InvokedName(call: ToolCall): string {
    match call
    case FunctionCall(id, name, _) => if name != "" then name else id
    case BareCall(id) => id
  }

  predicate Invokes(calls: seq<ToolCall>, name: string) {
    exists i :: 0 <= i < |calls| && InvokedName(calls[i]) == name
  }

  /** trackForcedToolUsage for one model answer to a body with this choice. */
  function Track(tracker: Tracker, choice: Choice, reply: Reply): Tracker {
    if !choice.Pin? || reply.Calls().None? then tracker
    else if choice.name != "" && Invokes(reply.Calls().value, choice.name)
      then Tracker(true, tracker.spent + [choice.name])
    else Tracker(false, tracker.spent)
  }

  /** Some call, wherever it stands, is a function call of that name, or has no name and that id. */
  ghost predicate Called(calls: seq<ToolCall>, name: string) {
    exists i :: 0 <= i < |calls| &&
      match calls[i]
      case FunctionCall(id, called, _) => called == name || (called == "" && id == name)
      case BareCall(id) => id == name
  }

  /** The answer to a body with this choice used its pin. */
  ghost predicate UsesPin(choice: Choice, reply: Reply) {
    TellsOfPin(choice, reply) && choice.name != "" && Called(reply.calls.value, choice.name)
  }

  /** The answer to a body with this choice says whether its pin was used: it carried one and has a list of calls. */
  ghost predicate TellsOfPin(choice: Choice, reply: Reply) {
    choice.Pin? && reply.Reply? && reply.calls.Some?
  }

  /**
    A used pin joins the spent list and raises the flag, an answer that does not use its pin lowers the flag,
    and no other answer changes anything.
    */
  ghost predicate TrackLaw(before: Tracker, choice: Choice, reply: Reply, after: Tracker) {
    && (UsesPin(choice, reply) ==> after == Tracker(true, before.spent + [choice.name]))
    && (TellsOfPin(choice, reply) && !UsesPin(choice, reply) ==> after == Tracker(false, before.spent))
    && (!TellsOfPin(choice, reply) ==> after == before)
  }

  lemma {:induction false} CalledIff(calls: seq<ToolCall>, name: string)
    requires name != ""
    ensures Invokes(calls, name) <==> Called(calls, name)
  {
    if i :| 0 <= i < |calls| && InvokedName(calls[i]) == name {
      assert Called(calls, name);
    }
    forall i | 0 <= i < |calls| && InvokedName(calls[i]) != name
      ensures match calls[i]
              case FunctionCall(id, called, _) => !(called == name || (called == "" && id == name))
              case BareCall(id) => id != name
    {
    }
  }

  lemma {:induction false} TracksByTheLaw(before: Tracker, choice: Choice, reply: Reply)
    ensures TrackLaw(before, choice, reply, Track(before, choice, reply))
  {
    if choice.Pin? && choice.name != "" && reply.Calls().Some? {
      CalledIff(reply.Calls().value, choice.name);
    }
  }

  /** name stands in the list, is not spent, and everything before it is. */
  ghost predicate IsFirstUnspent(pinned: seq<string>, spent: seq<string>, name: string) {
    exists i :: 0 <= i < |pinned| && pinned[i] == name && name !in spent && AllIn(pinned[..i], spent)
  }

  predicate AllIn(names: seq<string>, spent: seq<string>) {
    forall n :: n in names ==> n in spent
  }

  function FirstUnspent(pinned: seq<string>, spent: seq<string>): (r: Option<string>)
    ensures r.None? <==> AllIn(pinned, spent)
    ensures r.Some? ==> IsFirstUnspent(pinned, spent, r.value)
  {
    if pinned == [] then None
    else if pinned[0] !in spent then
      assert AllIn(pinned[..0], spent);
      Some(pinned[0])
    else
      var r := FirstUnspent(pinned[1..], spent);
      assert r.Some? ==> IsFirstUnspent(pinned, spent, r.value) by {
        if r.Some? {
          var i :| 0 <= i < |pinned[1..]| && pinned[1..][i] == r.value && AllIn(pinned[1..][..i], spent);
          assert pinned[..i + 1] == [pinned[0]] + pinned[1..][..i];
          assert pinned[i + 1] == r.value && AllIn(pinned[..i + 1], spent);
        }
      }
      r
  }

  /** pickNextToolChoice: the override, or None to leave the base body's choice alone. */
  function PickNext(original: Choice, tracker: Tracker, pinned: seq<string>): Option<Choice> {
    if !original.Pin? || !tracker.activated || pinned == [] then None
    else match FirstUnspent(pinned, tracker.spent)
      case Some(name) => Some(Pin(name))
      case None => Some(Auto)
  }

  /** The choice the next loop call carries. */
  function NextChoice(pins: Pins, tracker: Tracker): Choice {
    PickNext(pins.original, tracker, pins.pinned).GetOr(pins.original)
  }

  /** The tracker after the k-th completed reply. */
  function TrackerAt(pins: Pins, script: Script, k: nat): Tracker {
    if k == 0 then Track(FRESH, pins.original, ReplyAt(script, 0))
    else
      var before := TrackerAt(pins, script, k - 1);
      Track(before, NextChoice(pins, before), ReplyAt(script, k))
  }

  /** The choice of the k-th non-streaming body. */
  function ChoiceAt(pins: Pins, script: Script, k: nat): Choice {
    if k == 0 then pins.original else NextChoice(pins, TrackerAt(pins, script, k - 1))
  }

  // ---------- What the sequence of choices satisfies ----------

  function SpentSet(t: Tracker): set<string> {
    set s | s in t.spent
  }

  function Unspent(pins: Pins, t: Tracker): set<string> {
    (set p | p in pins.pinned) - SpentSet(t)
  }

  /** Only pinned tools are ever spent, and nothing is spent while no pin was ever sent. */
  lemma {:induction false} SpentArePinned(pins: Pins, script: Script, k: nat)
    requires Coherent(pins)
    ensures forall s :: s in TrackerAt(pins, script, k).spent ==> s in pins.pinned
    ensures TrackerAt(pins, script, k).activated ==> pins.original.Pin?
    decreases k
  {
    if k == 0 {
    } else {
      SpentArePinned(pins, script, k - 1);
    }
  }

  /** The spent list only grows, at most by the one tool that the body pinned. */
  lemma {:induction false} SpentOnlyGrows(pins: Pins, script: Script, i: nat, k: nat)
    requires Coherent(pins)
    requires i <= k
    ensures TrackerAt(pins, script, i).spent <= TrackerAt(pins, script, k).spent
    decreases k
  {
    if i == k {
    } else {
      SpentOnlyGrows(pins, script, i, k - 1);
      var before := TrackerAt(pins, script, k - 1);
      assert before.spent <= TrackerAt(pins, script, k).spent;
    }
  }

  /**
    What body k + 1 carries. An override never pins a spent tool: it pins the first unspent one in
    list order, and is auto exactly when every pinned tool is spent.
    */
  lemma {:induction false} OverridePinsFirstUnspent(pins: Pins, script: Script, k: nat)
    requires Coherent(pins)
    requires TrackerAt(pins, script, k).activated
    ensures var c := ChoiceAt(pins, script, k + 1);
            var spent := TrackerAt(pins, script, k).spent;
            && (c == Auto <==> Unspent(pins, TrackerAt(pins, script, k)) == {})
            && (c != Auto ==> c.Pin? && c.name !in spent && IsFirstUnspent(pins.pinned, spent, c.name))
  {
    SpentArePinned(pins, script, k);
    var t := TrackerAt(pins, script, k);
    var r := FirstUnspent(pins.pinned, t.spent);
    if r.Some? {
      assert r.value in Unspent(pins, t);
    } else {
      assert Unspent(pins, t) == {};
    }
  }

  /**
    A body pins a tool that is already spent exactly when the previous answer ignored its pin (which
    clears the flag, so the body falls back to the original choice) and the first pinned tool has
    been used before.
    */
  lemma {:induction false} SpentToolPinnedAgainIff(pins: Pins, script: Script, k: nat)
    requires Coherent(pins)
    ensures var t := TrackerAt(pins, script, k);
            var c := ChoiceAt(pins, script, k + 1);
            (c.Pin? && c.name in t.spent) <==> (!t.activated && pins.pinned != [] && pins.pinned[0] in t.spent)
  {
    var t := TrackerAt(pins, script, k);
    if t.activated {
      OverridePinsFirstUnspent(pins, script, k);
    }
  }

  /** It does happen: two pinned tools, the first is called, then the second pin is ignored. */
  lemma {:induction false} FallbackExample(pins: Pins, script: Script)
    requires pins == Pins(Pin("a"), ["a", "b"])
    requires script.first == Some(Reply(None, Some([FunctionCall("1", "a", "{}")]), None))
    requires script.rounds(0).answer == script.first
    ensures ChoiceAt(pins, script, 1) == Pin("b") && ChoiceAt(pins, script, 2) == Pin("a")
    ensures "a" in TrackerAt(pins, script, 1).spent
  {
    var calls := ReplyAt(script, 0).Calls().value;
    assert InvokedName(calls[0]) == "a";
    assert Invokes(calls, "a") && !Invokes(calls, "b");
    assert TrackerAt(pins, script, 0) == Tracker(true, ["a"]);
    assert pins.pinned[1..] == ["b"];
    assert FirstUnspent(["b"], ["a"]) == Some("b");
    assert TrackerAt(pins, script, 1) == Tracker(false, ["a"]);
  }

  /** Once every pinned tool is spent and the flag is up, all later bodies say auto. */
  lemma {:induction false} AutoIsFinal(pins: Pins, script: Script, k: nat, m: nat)
    requires Coherent(pins)
    requires k <= m
    requires TrackerAt(pins, script, k).activated && Unspent(pins, TrackerAt(pins, script, k)) == {}
    ensures ChoiceAt(pins, script, m + 1) == Auto
    ensures TrackerAt(pins, script, m) == TrackerAt(pins, script, k)
    decreases m
  {
    if m == k {
      OverridePinsFirstUnspent(pins, script, k);
    } else {
      AutoIsFinal(pins, script, k, m - 1);
      assert TrackerAt(pins, script, m) == TrackerAt(pins, script, m - 1);
    }
  }

  /** Reply k calls the tool its body pinned, when it pinned one. */
  ghost predicate Obeys(pins: Pins, script: Script, k: nat) {
    ChoiceAt(pins, script, k).Pin? ==>
      ReplyAt(script, k).Reply? && ReplyAt(script, k).calls.Some? &&
      Called(ReplyAt(script, k).calls.value, ChoiceAt(pins, script, k).name)
  }

  lemma {:induction false} SpendOne(pins: Pins, before: Tracker, after: Tracker, name: string)
    requires name in Unspent(pins, before) && after.spent == before.spent + [name]
    ensures |Unspent(pins, after)| == |Unspent(pins, before)| - 1
  {
    assert Unspent(pins, after) == Unspent(pins, before) - {name};
  }

  function Before(pins: Pins, script: Script, k: nat): Tracker {
    if k == 0 then FRESH else TrackerAt(pins, script, k - 1)
  }

  /** One obedient answer: the flag is up and, unless all were spent, one more pinned tool is. */
  lemma {:induction false} ObedientStep(pins: Pins, script: Script, k: nat)
    requires Coherent(pins)
    requires pins.pinned != [] && "" !in pins.pinned
    requires Obeys(pins, script, k) && (k > 0 ==> Before(pins, script, k).activated)
    ensures TrackerAt(pins, script, k).activated
    ensures var before, after := Unspent(pins, Before(pins, script, k)), Unspent(pins, TrackerAt(pins, script, k));
            if before == {} then after == {} else |after| == |before| - 1
  {
    var before := Before(pins, script, k);
    if k > 0 {
      OverridePinsFirstUnspent(pins, script, k - 1);
    } else {
      assert pins.pinned[0] in Unspent(pins, FRESH);
    }
    var c := ChoiceAt(pins, script, k);
    TracksByTheLaw(Before(pins, script, k), c, ReplyAt(script, k));
    if c.Pin? {
      assert c.name in Unspent(pins, before);
      SpendOne(pins, before, TrackerAt(pins, script, k), c.name);
    }
  }

  ghost predicate ObeysUpTo(pins: Pins, script: Script, k: nat) {
    forall i :: 0 <= i <= k ==> Obeys(pins, script, i)
  }

  lemma {:induction false} ObedientRunCounts(pins: Pins, script: Script, k: nat)
    requires Coherent(pins) && pins.pinned != [] && "" !in pins.pinned && ObeysUpTo(pins, script, k)
    ensures TrackerAt(pins, script, k).activated
    ensures var all := |set p | p in pins.pinned|;
            |Unspent(pins, TrackerAt(pins, script, k))| == if k + 1 <= all then all - (k + 1) else 0
    decreases k
  {
    assert Obeys(pins, script, k);
    NothingSpentYet(pins);
    if k == 0 {
    } else {
      ObedientRunCounts(pins, script, k - 1);
    }
    ObedientStep(pins, script, k);
  }

  /**
    If every reply calls the tool pinned for it, the pinned tools are worked off one a reply: after
    reply k, either they are all spent or exactly k + 1 of them are, so the choice turns to auto
    after as many replies as there are distinct pinned tools.
    */
  lemma {:induction false} ObedientRunSpendsEveryPin(pins: Pins, script: Script, k: nat)
    requires Coherent(pins) && pins.pinned != [] && "" !in pins.pinned && ObeysUpTo(pins, script, k)
    ensures var all := |set p | p in pins.pinned|;
            |Unspent(pins, TrackerAt(pins, script, k))| == if k + 1 <= all then all - (k + 1) else 0
    ensures ChoiceAt(pins, script, k + 1) == Auto <==> k + 1 >= |set p | p in pins.pinned|
  {
    ObedientRunCounts(pins, script, k);
    OverridePinsFirstUnspent(pins, script, k);
  }

  lemma {:induction false} NothingSpentYet(pins: Pins)
    requires pins.pinned != []
    ensures Unspent(pins, FRESH) == (set p | p in pins.pinned)
    ensures |set p | p in pins.pinned| > 0
  {
    var all := set p | p in pins.pinned;
    assert pins.pinned[0] in all;
  }
}
