/** The status column of an execution row and the guarded updates that move it. */
module SopStatus {

  datatype Status =
    | Pending | Running | PausedForHuman | PausedForTool | Completed | TimedOut | Error | Failed | Cancelled

  /** The transitions that transitionStatus admits. */
  function Targets(from: Status): set<Status> {
    match from
    case Pending => {Running, Cancelled}
    case Running => {PausedForHuman, PausedForTool, Completed, Error, Cancelled}
    case PausedForHuman => {Running, Failed, TimedOut, Cancelled}
    case PausedForTool => {Running, Failed, TimedOut, Error, Cancelled}
    case Error => {Running, Failed, Cancelled, TimedOut}
    case _ => {}
  }

  /**
    How each status is entered: a run starts, and comes back from a pause or an error; it pauses, completes
    and errs while it runs; it fails and times out in a pause or after an error; and it is cancelled as long
    as it could still go on.
    */
  lemma {:induction false} EnteredFrom(from: Status)
    ensures Pending !in Targets(from)
    ensures Running in Targets(from) <==> from in {Pending, PausedForHuman, PausedForTool, Error}
    ensures PausedForHuman in Targets(from) <==> from == Running
    ensures PausedForTool in Targets(from) <==> from == Running
    ensures Completed in Targets(from) <==> from == Running
    ensures Error in Targets(from) <==> from in {Running, PausedForTool}
    ensures Failed in Targets(from) <==> from in {PausedForHuman, PausedForTool, Error}
    ensures TimedOut in Targets(from) <==> from in {PausedForHuman, PausedForTool, Error}
    ensures Cancelled in Targets(from) <==> from in {Pending, Running, PausedForHuman, PausedForTool, Error}
  {
  }

  /** SOP_TERMINAL_STATUSES. */
  predicate Terminal(s: Status) {
    s in {Completed, TimedOut, Error, Failed, Cancelled}
  }

  /** The statuses that nothing leaves, and error. */
  lemma {:induction false} TerminalIff(s: Status)
    ensures Terminal(s) <==> s == Error || forall to :: to !in Targets(s)
  {
    assert s == Pending || s == Running || s == PausedForHuman || s == PausedForTool ==> Cancelled in Targets(s);
  }

  predicate Admits(status: Status, from: Status, to: Status) {
    to in Targets(from) && status == from
  }

  /** The status after a guarded update. */
  function After(status: Status, from: Status, to: Status): Status {
    if Admits(status, from, to) then to else status
  }

  /** The guard of the hand-over: the flag is down and the run has not ended. */
  predicate HandsOver(pushByEngine: bool, status: Status) {
    !pushByEngine && !Terminal(status)
  }

  /** The ends that come from outside the engine's own loop. */
  predicate EndsFromOutside(to: Status) {
    to in {Cancelled, TimedOut, Failed}
  }

  /** The status after somebody outside, who has read the status seen, asks for an end. */
  function Ended(status: Status, seen: Status, to: Status): Status {
    if EndsFromOutside(to) then After(status, seen, to) else status
  }

  class ExecutionRow {
    var status: Status
    var pushByEngine: bool

    constructor ()
      ensures status == Pending && pushByEngine
    {
      status, pushByEngine := Pending, true;
    }

    /** UPDATE ... SET status = to WHERE status = from; moved tells that a row came back. */
    method TransitionStatus(from: Status, to: Status) returns (moved: bool)
      modifies this`status
      ensures moved <==> Admits(old(status), from, to)
      ensures status == After(old(status), from, to)
    {
      if to !in Targets(from) || status != from {
        return false;
      }
      status := to;
      moved := true;
    }

    /** The conversation gives up waiting: the flag flips back unless the run has already ended. */
    method HandOver() returns (handed: bool)
      modifies this`pushByEngine
      ensures handed <==> !old(pushByEngine) && !Terminal(status)
      ensures pushByEngine == (old(pushByEngine) || !Terminal(status))
    {
      handed := HandsOver(pushByEngine, status);
      if handed {
        pushByEngine := true;
      }
    }

    /** cancelSopExecution on a row that nobody else moves meanwhile. */
    method Cancel() returns (cancelled: bool)
      modifies this`status
      ensures cancelled <==> !Terminal(old(status))
      ensures status == if cancelled then Cancelled else old(status)
      ensures cancelled ==> status == Ended(old(status), old(status), Cancelled)
    {
      if Terminal(status) {
        return false;
      }
      cancelled := TransitionStatus(status, Cancelled);
    }

    /** processSopTimeout: whatever non-terminal status it reads, it asks for timed_out. */
    method TimeOut()
      modifies this`status
      ensures status == if old(status) in {PausedForHuman, PausedForTool} then TimedOut else old(status)
      ensures !Terminal(old(status)) ==> status == Ended(old(status), old(status), TimedOut)
    {
      if !Terminal(status) {
        var _ := TransitionStatus(status, TimedOut);
      }
    }
  }

  /** A guarded update: the status it expects and the one it writes. */
  datatype Update = Update(from: Status, to: Status)

  function AfterAll(status: Status, updates: seq<Update>): Status {
    if updates == [] then status
    else
      var last := updates[|updates| - 1];
      After(AfterAll(status, updates[..|updates| - 1]), last.from, last.to)
  }

  /** Four of the five terminal statuses survive any updates by anybody; error does not. */
  lemma {:induction false} TerminalIsFinalUnlessError(status: Status)
    requires Terminal(status)
    ensures (forall updates :: AfterAll(status, updates) == status) <==> status != Error
  {
    if status == Error {
      var retry := [Update(Error, Running)];
      assert retry[..0] == [];
      assert AfterAll(status, retry) == Running;
    } else {
      forall updates ensures AfterAll(status, updates) == status {
        NoUpdateMoves(status, updates);
      }
    }
  }

  lemma {:induction false} NoUpdateMoves(status: Status, updates: seq<Update>)
    requires Targets(status) == {}
    ensures AfterAll(status, updates) == status
  {
    if updates == [] {
    } else {
      NoUpdateMoves(status, updates[..|updates| - 1]);
    }
  }

  /** Only an update that expects a status moves it: no human-approval update ever leaves paused_for_tool. */
  lemma {:induction false} LeftOnlyByItsOwnUpdates(status: Status, updates: seq<Update>)
    requires forall u :: u in updates ==> u.from != status
    ensures AfterAll(status, updates) == status
  {
    if updates == [] {
    } else {
      LeftOnlyByItsOwnUpdates(status, updates[..|updates| - 1]);
    }
  }
}
