/**
  Human approval: the First-Wins pause row, and the suspension it belongs to as an interleaving of
  the engine, the deciders, the expiry timer and cold recovery.
  */
module HumanPause {
  import opened Prelude
  import opened SopStatus

  datatype PauseStatus = Waiting | Decided | Expired

  datatype Decision = Approved | Rejected | NoAnswer

  datatype Pause = Pause(status: PauseStatus, decision: Option<Decision>, decidedBy: Option<string>)

  const WAITING := Pause(Waiting, None, None)

  /** A guarded update of a pause row. */
  datatype Move = Decide(decision: Decision, decider: string) | Expire

  function Written(m: Move): Pause {
    match m
    case Decide(decision, decider) => Pause(Decided, Some(decision), Some(decider))
    case Expire => Pause(Expired, Some(NoAnswer), None)
  }

  function Moved(p: Pause, m: Move): Pause {
    if p.status == Waiting then Written(m) else p
  }

  function MovedAll(p: Pause, moves: seq<Move>): Pause {
    if moves == [] then p else Moved(MovedAll(p, moves[..|moves| - 1]), moves[|moves| - 1])
  }

  class PauseRow {
    var status: PauseStatus
    var decision: Option<Decision>
    var decidedBy: Option<string>

    function Value(): Pause
      reads this
    {
      Pause(status, decision, decidedBy)
    }

    predicate Valid()
      reads this
    {
      status == Waiting ==> Value() == WAITING
    }

    constructor ()
      ensures Valid() && Value() == WAITING
    {
      status, decision, decidedBy := Waiting, None, None;
    }

    /** The decide and approve routes; won == false is their conflict answer. */
    method TryDecide(decision: Decision, decider: string) returns (won: bool)
      requires Valid()
      modifies this
      ensures Valid() && (won <==> old(status) == Waiting)
      ensures Value() == Moved(old(Value()), Decide(decision, decider))
      ensures won ==> status == Decided && this.decision == Some(decision) && decidedBy == Some(decider)
      ensures !won ==> Value() == old(Value())
    {
      won := status == Waiting;
      if won {
        status, this.decision, decidedBy := Decided, Some(decision), Some(decider);
      }
    }

    /** The node timer: it leaves the decider column alone. */
    method TryExpire() returns (won: bool)
      requires Valid()
      modifies this`status, this`decision
      ensures Valid() && (won <==> old(status) == Waiting)
      ensures Value() == Moved(old(Value()), Expire)
      ensures won ==> status == Expired && this.decision == Some(NoAnswer) && decidedBy == None
      ensures !won ==> Value() == old(Value())
    {
      won := status == Waiting;
      if won {
        status, decision := Expired, Some(NoAnswer);
      }
    }
  }

  /** The row records this decision by this person; an expired one records no answer by nobody. */
  predicate Records(p: Pause, m: Move) {
    match m
    case Decide(decision, decider) =>
      p.status == Decided && p.decision == Some(decision) && p.decidedBy == Some(decider)
    case Expire =>
      p.status == Expired && p.decision == Some(NoAnswer) && p.decidedBy == None
  }

  /**
    First wins: of any number of deciders and timers in any order exactly the first update returns a
    row, and after it the row records that one for good.
    */
  lemma {:induction false} FirstWins(moves: seq<Move>, k: nat)
    requires k <= |moves|
    ensures var p := MovedAll(WAITING, moves[..k]); if k == 0 then p == WAITING else Records(p, moves[0])
    ensures MovedAll(WAITING, moves[..k]).status == Waiting <==> k == 0
  {
    if k == 0 {
    } else {
      FirstWins(moves, k - 1);
      assert moves[..k][..k - 1] == moves[..k - 1];
    }
  }

  // ---------- The human nodes of an execution ----------

  /** What the winner of a pause does next. A timer without an exit first looks the status up, then ends it. */
  datatype Attempt = Resume(decision: Decision) | LookUp | EndTimedOut(seen: Status)

  /** Opening: the pause row of a human node is there, its suspension is still to come. */
  datatype Engine = Idle | Driving | Opening

  predicate IsRejection(p: Pause) {
    p.status == Decided && p.decision == Some(Rejected)
  }

  /** pauses has one row for every pass through a human node, none is ever deleted; limit is maxRejectionCycles. */
  datatype State = State(status: Status, engine: Engine, pauses: seq<Pause>, attempts: seq<Attempt>,
                         rejections: int, limit: int)
  {
    predicate Suspended() { status == PausedForHuman }

    predicate Waits(row: nat) { row < |pauses| && pauses[row].status == Waiting }

    predicate Decides(row: nat) { row < |pauses| && pauses[row].status == Decided }

    predicate Rejects(row: nat) { row < |pauses| && IsRejection(pauses[row]) }

    predicate Awaiting() { exists row: nat | row < |pauses| :: Waits(row) }

    predicate LastWaits() { pauses != [] && pauses[|pauses| - 1].status == Waiting }

    predicate EverDecided() { exists row: nat | row < |pauses| :: Decides(row) }
  }

  /** How many pauses were answered with a rejection. */
  function RejectedRows(pauses: seq<Pause>): nat {
    if pauses == [] then 0
    else
      RejectedRows(pauses[..|pauses| - 1]) + (if IsRejection(pauses[|pauses| - 1]) then 1 else 0)
  }

  function Init(rejections: int, limit: int): State {
    State(Running, Driving, [], [], rejections, limit)
  }

  /**
    Recover is cold recovery; row is the decided row that its query happens to return first. Lose is an
    attempt that throws, counted after it has stored the rejection that it carries.
    */
  datatype Step =
    | Open
    | Suspend
    | Answer(row: nat, decision: Decision, decider: string)
    | TimerFires(row: nat, hasExit: bool)
    | Try(k: nat)
    | Recover(row: nat)
    | DriverEnds(to: Status)
    | ToolResume
    | Outside(seen: Status, to: Status)
    | Lose(k: nat, counted: bool)
    | Crash

  ghost predicate WithoutRecovery(steps: seq<Step>) {
    forall i :: 0 <= i < |steps| ==> !steps[i].Recover?
  }

  /** Cold recovery has not come, and nothing under way was lost by a throwing query or a crash. */
  ghost predicate Undisturbed(steps: seq<Step>) {
    forall i :: 0 <= i < |steps| ==> !steps[i].Recover? && steps[i] != Crash && !steps[i].Lose?
  }

  /** resumeSopFromPause: a rejection over the limit fails the run, any other decision resumes it. */
  function Resumed(s: State, decision: Decision): State {
    if decision == Rejected && s.rejections + 1 >= s.limit then
      s.(status := After(s.status, PausedForHuman, Failed),
         rejections := if s.Suspended() then s.rejections + 1 else s.rejections)
    else
      s.(status := After(s.status, PausedForHuman, Running), engine := if s.Suspended() then Driving else s.engine,
         rejections := if decision == Rejected then s.rejections + 1 else s.rejections)
  }

  function Tried(s: State, k: nat): State
    requires k < |s.attempts|
  {
    var rest := s.(attempts := Without(s.attempts, k));
    match s.attempts[k]
    case Resume(decision) => Resumed(rest, decision)
    case LookUp => s.(attempts := s.attempts[k := EndTimedOut(s.status)])
    case EndTimedOut(seen) => rest.(status := Ended(s.status, seen, TimedOut))
  }

  /** A rejection below the limit is stored by a statement of its own, before the status moves. */
  function Lost(s: State, k: nat, counted: bool): State
    requires k < |s.attempts|
  {
    s.(attempts := Without(s.attempts, k),
       rejections := if counted && s.attempts[k] == Resume(Rejected) && s.rejections + 1 < s.limit
                     then s.rejections + 1 else s.rejections)
  }

  /**
    Cold recovery of a stale execution in paused_for_human. It looks for decided rows of the whole
    execution, not of the pause that is suspended.
    */
  function Recovered(s: State, row: nat): State {
    if !s.Suspended() || s.Awaiting() then s
    else if !s.EverDecided() then s.(status := Failed)
    else if s.Decides(row) then s.(attempts := s.attempts + [Resume(s.pauses[row].decision.GetOr(Approved))])
    else s
  }

  /** An update of a pause row that comes first; attempt is what its author does next. */
  function Answered(s: State, row: nat, move: Move, attempt: Attempt): State
    requires s.Waits(row)
  {
    s.(pauses := s.pauses[row := Moved(s.pauses[row], move)], attempts := s.attempts + [attempt])
  }

  /**
    One step; a step that is not enabled changes nothing. The pause row is inserted before the
    suspension; a driver that has inserted it can then only suspend or throw.
    */
  function Next(s: State, step: Step): State {
    match step
    case Open => if s.engine == Driving then s.(pauses := s.pauses + [WAITING], engine := Opening) else s
    case Suspend =>
      if s.engine == Opening then s.(status := After(s.status, Running, PausedForHuman), engine := Idle) else s
    case Answer(row, decision, decider) =>
      if s.Waits(row) then Answered(s, row, Decide(decision, decider), Resume(decision)) else s
    case TimerFires(row, hasExit) =>
      if s.Waits(row) then Answered(s, row, Expire, if hasExit then Resume(NoAnswer) else LookUp) else s
    case Try(k) => if k < |s.attempts| then Tried(s, k) else s
    case Recover(row) => Recovered(s, row)
    case DriverEnds(to) =>
      if s.engine != Idle && to != PausedForHuman && (s.engine == Opening ==> to in {Running, Error})
      then s.(engine := Idle, status := After(s.status, Running, to)) else s
    case ToolResume => if Admits(s.status, PausedForTool, Running) then s.(status := Running, engine := Driving) else s
    case Outside(seen, to) => s.(status := Ended(s.status, seen, to))
    case Lose(k, counted) => if k < |s.attempts| then Lost(s, k, counted) else s
    case Crash => s.(engine := Idle, attempts := [])
  }

  /** Answered, nobody left to resume it, yet suspended. */
  ghost predicate Stuck(s: State) {
    s.Suspended() && !s.Awaiting() && s.attempts == []
  }

  // ---------- Every run without cold recovery ----------

  /** At most the newest row waits. */
  ghost predicate OnlyLastWaits(s: State) {
    forall row: nat :: s.Waits(row) ==> row == |s.pauses| - 1
  }

  /** At most one attempt is under way, and none while a row waits or before the next one can be opened. */
  ghost predicate InOrder(s: State) {
    && OnlyLastWaits(s) && |s.attempts| <= 1
    && (s.LastWaits() ==> s.attempts == [])
    && (s.engine == Driving || s.status == PausedForTool ==> !s.LastWaits() && s.attempts == [])
    && (s.engine == Opening ==> s.pauses != [])
    && (s.status in {PausedForHuman, PausedForTool} ==> s.engine == Idle)
  }

  lemma {:induction false} AwaitingIff(s: State)
    requires OnlyLastWaits(s)
    ensures s.Awaiting() <==> s.LastWaits()
  {
    assert s.LastWaits() ==> s.Waits(|s.pauses| - 1);
  }

  /** Opening a row, while no other waits, makes the newest one the only one that waits. */
  lemma {:induction false} OpenKeepsOrder(s: State)
    requires InOrder(s) && s.engine == Driving
    ensures InOrder(Next(s, Open))
  {
    var next := Next(s, Open);
    forall row: nat | next.Waits(row) ensures row == |next.pauses| - 1 {
      assert row < |s.pauses| ==> s.Waits(row);
    }
  }

  /** Whoever answers first answers the newest row, and then no row waits. */
  lemma {:induction false} AnswerKeepsOrder(s: State, row: nat, move: Move, attempt: Attempt)
    requires InOrder(s) && s.Waits(row)
    ensures row == |s.pauses| - 1 && s.attempts == []
    ensures var next := Answered(s, row, move, attempt); InOrder(next) && !next.LastWaits()
  {
    var next := Answered(s, row, move, attempt);
    forall other: nat ensures !next.Waits(other) {
      assert other < |s.pauses| && other != row ==> next.Waits(other) == s.Waits(other);
    }
  }

  lemma {:induction false} SameRows(s: State, next: State)
    requires next.pauses == s.pauses
    ensures next.Awaiting() == s.Awaiting() && OnlyLastWaits(next) == OnlyLastWaits(s)
  {
    assert forall row: nat :: next.Waits(row) == s.Waits(row);
  }

  lemma {:induction false} StepKeepsOrder(s: State, step: Step)
    requires InOrder(s) && !step.Recover?
    ensures InOrder(Next(s, step))
  {
    match step {
      case Open =>
        if s.engine == Driving {
          OpenKeepsOrder(s);
        }
      case Answer(row, decision, decider) =>
        if s.Waits(row) {
          AnswerKeepsOrder(s, row, Decide(decision, decider), Resume(decision));
        }
      case TimerFires(row, hasExit) =>
        if s.Waits(row) {
          AnswerKeepsOrder(s, row, Expire, if hasExit then Resume(NoAnswer) else LookUp);
        }
      case _ => SameRows(s, Next(s, step));
    }
  }

  lemma {:induction false} RunKeepsOrder(rejections: int, limit: int, steps: seq<Step>)
    requires WithoutRecovery(steps)
    ensures InOrder(Run(Next, Init(rejections, limit), steps))
  {
    if steps == [] {
    } else {
      RunKeepsOrder(rejections, limit, steps[..|steps| - 1]);
      StepKeepsOrder(Run(Next, Init(rejections, limit), steps[..|steps| - 1]), steps[|steps| - 1]);
    }
  }

  // ---------- When an approval is lost ----------

  /** This attempt can end a suspension: it does not rest on a status read before it. */
  predicate Fit(a: Attempt) {
    !a.EndTimedOut? || a.seen == PausedForHuman
  }

  predicate OneAttempt(s: State) {
    |s.attempts| == 1 && Fit(s.attempts[0])
  }

  /** Until the next pause row is opened, a suspension has its wake-up. */
  ghost predicate Safe(s: State) {
    InOrder(s) && s.engine != Opening && (s.Suspended() && !s.LastWaits() ==> OneAttempt(s))
  }

  lemma {:induction false} StepKeepsSafe(s: State, step: Step)
    requires Safe(s) && !step.Recover? && step != Crash && !step.Lose? && step != Open
    ensures Safe(Next(s, step))
  {
    StepKeepsOrder(s, step);
    match step {
      case Answer(row, decision, decider) =>
        if s.Waits(row) {
          AnswerKeepsOrder(s, row, Decide(decision, decider), Resume(decision));
        }
      case TimerFires(row, hasExit) =>
        if s.Waits(row) {
          AnswerKeepsOrder(s, row, Expire, if hasExit then Resume(NoAnswer) else LookUp);
        }
      case _ => SameRows(s, Next(s, step));
    }
  }

  lemma {:induction false} SafeForGood(s: State, steps: seq<Step>)
    requires Safe(s) && Undisturbed(steps) && Open !in steps
    ensures Safe(Run(Next, s, steps)) && !Stuck(Run(Next, s, steps))
  {
    if steps == [] {
    } else {
      SafeForGood(s, steps[..|steps| - 1]);
      StepKeepsSafe(Run(Next, s, steps[..|steps| - 1]), steps[|steps| - 1]);
    }
    AwaitingIff(Run(Next, s, steps));
  }

  /** The pause was answered before the suspension and no attempt is left that could end it. */
  ghost predicate AnsweredTooEarly(s: State) {
    !s.Awaiting() && forall a :: a in s.attempts ==> !Fit(a)
  }

  /** Attempts that are not fit leave a suspension as it is. */
  lemma {:induction false} VainAttempts(s: State) returns (steps: seq<Step>)
    requires s.Suspended() && |s.attempts| <= 1 && AnsweredTooEarly(s)
    ensures Undisturbed(steps) && Open !in steps && Stuck(Run(Next, s, steps))
  {
    if s.attempts == [] {
      steps := [];
    } else {
      assert !Fit(s.attempts[0]);
      steps := [Try(0)];
      RunOne(Next, s, Try(0));
      SameRows(s, Next(s, Try(0)));
    }
  }

  /**
    A human suspension can end up stuck, before another pause is opened, exactly when, at the suspension,
    its pause row was already answered and the answer's attempt has either run in vain or expects a
    status read before it. Unlike a tool suspension, nobody re-checks.
    */
  lemma {:induction false} StuckIff(rejections: int, limit: int, before: seq<Step>)
    requires Undisturbed(before)
    requires Run(Next, Init(rejections, limit), before).engine == Opening
    requires Run(Next, Init(rejections, limit), before).status == Running
    ensures var s := Run(Next, Init(rejections, limit), before);
            (exists steps :: Undisturbed(steps) && Open !in steps && Stuck(Run(Next, Next(s, Suspend), steps))) <==>
            AnsweredTooEarly(s)
  {
    RunKeepsOrder(rejections, limit, before);
    var s := Run(Next, Init(rejections, limit), before);
    var suspended := Next(s, Suspend);
    SameRows(s, suspended);
    AwaitingIff(s);
    StepKeepsOrder(s, Suspend);
    if AnsweredTooEarly(s) {
      var steps := VainAttempts(suspended);
    } else {
      forall steps | Undisturbed(steps) && Open !in steps ensures !Stuck(Run(Next, suspended, steps)) {
        SafeForGood(suspended, steps);
      }
    }
  }

  /** Nothing but cold recovery or an outside end gets it out again. */
  lemma {:induction false} StuckForGood(s: State, steps: seq<Step>)
    requires Stuck(s) && s.engine == Idle
    requires forall i :: 0 <= i < |steps| ==> !steps[i].Recover? && !steps[i].Outside?
    ensures Run(Next, s, steps) == s
  {
    if steps == [] {
    } else {
      StuckForGood(s, steps[..|steps| - 1]);
      StuckStays(s, steps[|steps| - 1]);
    }
  }

  lemma {:induction false} StuckStays(s: State, step: Step)
    requires Stuck(s) && s.engine == Idle && !step.Recover? && !step.Outside?
    ensures Next(s, step) == s
  {
  }

  /**
    Cold recovery of a stuck execution fails it exactly when no pause row of the execution was ever
    decided. Otherwise it carries out the decision of a decided row, whichever that is: one that
    was carried out before, or a rejection that is now one too many.
    */
  lemma {:induction false} RecoverStuck(s: State)
    requires Stuck(s)
    ensures (exists row: nat :: Next(s, Recover(row)).status == Failed) <==> !s.EverDecided()
    ensures forall row: nat :: s.Decides(row) ==>
              var decision, next := s.pauses[row].decision.GetOr(Approved), Next(s, Recover(row));
              next == s.(attempts := [Resume(decision)]) &&
              Next(next, Try(0)).status == if decision == Rejected && s.rejections + 1 >= s.limit then Failed else Running
  {
    assert Next(s, Recover(0)).status == if s.EverDecided() then PausedForHuman else Failed;
    forall row: nat | s.Decides(row)
      ensures Next(s, Recover(row)) == s.(attempts := [Resume(s.pauses[row].decision.GetOr(Approved))])
    {
      RecoverCarriesOut(s, row);
    }
  }

  lemma {:induction false} RecoverCarriesOut(s: State, row: nat)
    requires Stuck(s) && s.Decides(row)
    ensures Next(s, Recover(row)) == s.(attempts := [Resume(s.pauses[row].decision.GetOr(Approved))])
  {
  }

  /** An answered suspension loses its wake-up with its only attempt, and with any crash. */
  lemma {:induction false} LosingAnAttempt(s: State, k: nat, counted: bool)
    requires s.Suspended() && k < |s.attempts|
    ensures Stuck(Next(s, Lose(k, counted))) <==> !s.Awaiting() && |s.attempts| == 1
    ensures Stuck(Next(s, Crash)) <==> !s.Awaiting()
    ensures Next(s, Lose(k, counted)).rejections ==
            if counted && s.attempts[k] == Resume(Rejected) && s.rejections + 1 < s.limit then s.rejections + 1 else s.rejections
  {
    SameRows(s, Next(s, Lose(k, counted)));
    SameRows(s, Next(s, Crash));
  }

  // ---------- Counting rejections ----------

  /**
    The count lies between what it was and one more for every row that was answered with a rejection,
    strictly below that while such an answer is under way.
    */
  ghost predicate CountedOnce(s: State, rejections: int) {
    && rejections <= s.rejections <= rejections + RejectedRows(s.pauses)
    && (s.attempts == [Resume(Rejected)] ==> s.rejections < rejections + RejectedRows(s.pauses))
  }

  lemma {:induction false} AnswerCounts(s: State, row: nat, move: Move, attempt: Attempt)
    requires InOrder(s) && s.Waits(row)
    ensures Answered(s, row, move, attempt).attempts == [attempt]
    ensures RejectedRows(Answered(s, row, move, attempt).pauses) ==
            RejectedRows(s.pauses) + (if IsRejection(Written(move)) then 1 else 0)
  {
    AnswerKeepsOrder(s, row, move, attempt);
    assert Answered(s, row, move, attempt).pauses[..row] == s.pauses[..row];
  }

  lemma {:induction false} StepCountsOnce(s: State, step: Step, rejections: int)
    requires InOrder(s) && CountedOnce(s, rejections) && !step.Recover?
    ensures CountedOnce(Next(s, step), rejections)
  {
    match step {
      case Open =>
        if s.engine == Driving {
          assert (s.pauses + [WAITING])[..|s.pauses|] == s.pauses;
        }
      case Answer(row, decision, decider) =>
        if s.Waits(row) {
          AnswerCounts(s, row, Decide(decision, decider), Resume(decision));
        }
      case TimerFires(row, hasExit) =>
        if s.Waits(row) {
          AnswerCounts(s, row, Expire, if hasExit then Resume(NoAnswer) else LookUp);
          assert Next(s, step).attempts[0] != Resume(Rejected);
        }
      case Try(k) =>
        assert k < |s.attempts| ==> s.attempts == [s.attempts[k]];
      case Lose(k, counted) =>
        assert k < |s.attempts| ==> s.attempts == [s.attempts[k]];
      case _ =>
    }
  }

  /** Every run without cold recovery counts each rejected pause at most once. */
  lemma {:induction false} RejectionsBounded(rejections: int, limit: int, steps: seq<Step>)
    requires WithoutRecovery(steps)
    ensures CountedOnce(Run(Next, Init(rejections, limit), steps), rejections)
    ensures var s := Run(Next, Init(rejections, limit), steps);
            rejections <= s.rejections <= rejections + RejectedRows(s.pauses)
  {
    if steps == [] {
    } else {
      RejectionsBounded(rejections, limit, steps[..|steps| - 1]);
      RunKeepsOrder(rejections, limit, steps[..|steps| - 1]);
      StepCountsOnce(Run(Next, Init(rejections, limit), steps[..|steps| - 1]), steps[|steps| - 1], rejections);
    }
  }

  /**
    The recovery of a stuck run can make it more exactly when every rejection has been counted and there
    is one: it may return any rejected row of the execution, also when the stuck pause was approved.
    */
  lemma {:induction false} CountedTwiceIff(rejections: int, limit: int, steps: seq<Step>)
    requires WithoutRecovery(steps) && Stuck(Run(Next, Init(rejections, limit), steps))
    ensures var s := Run(Next, Init(rejections, limit), steps);
            (exists row: nat ::
               Next(Next(s, Recover(row)), Try(0)).rejections > rejections + RejectedRows(s.pauses)) <==>
            s.rejections == rejections + RejectedRows(s.pauses) && exists row: nat :: s.Rejects(row)
  {
    RejectionsBounded(rejections, limit, steps);
    var s := Run(Next, Init(rejections, limit), steps);
    forall row: nat
      ensures Next(Next(s, Recover(row)), Try(0)).rejections == s.rejections + (if s.Rejects(row) then 1 else 0)
    {
      RecoveryCounts(s, row);
    }
    if row: nat :| s.Rejects(row) {
      assert Next(Next(s, Recover(row)), Try(0)).rejections == s.rejections + 1;
    }
  }

  lemma {:induction false} RecoveryCounts(s: State, row: nat)
    requires Stuck(s)
    ensures Next(Next(s, Recover(row)), Try(0)).rejections == s.rejections + (if s.Rejects(row) then 1 else 0)
  {
    assert s.Rejects(row) ==> s.Decides(row);
    if s.Decides(row) {
      RecoverCarriesOut(s, row);
    }
  }

  // ---------- It does happen ----------

  /** A rejection whose attempt has run in vain before the suspension. */
  lemma {:induction false} RejectionCountedTwice(limit: int)
    requires limit > 2
    ensures var s := Run(Next, Init(0, limit), [Open, Answer(0, Rejected, "x"), Try(0), Suspend]);
            Stuck(s) && s.rejections == 1 && Next(Next(s, Recover(0)), Try(0)).rejections == 2
  {
    var init := Init(0, limit);
    RunFour(Next, init, Open, Answer(0, Rejected, "x"), Try(0), Suspend);
    var s := Run(Next, init, [Open, Answer(0, Rejected, "x"), Try(0), Suspend]);
    assert s == State(PausedForHuman, Idle, [Written(Decide(Rejected, "x"))], [], 1, limit);
    RecoveryCounts(s, 0);
  }

  /** A timer without an exit that has looked the status up before the suspension ends nothing after it. */
  lemma {:induction false} TimeoutLost(limit: int)
    ensures Stuck(Next(Run(Next, Init(0, limit), [Open, TimerFires(0, false), Try(0), Suspend]), Try(0)))
  {
    var init, expired := Init(0, limit), [Written(Expire)];
    RunFour(Next, init, Open, TimerFires(0, false), Try(0), Suspend);
    var s := Run(Next, init, [Open, TimerFires(0, false), Try(0), Suspend]);
    assert s == State(PausedForHuman, Idle, expired, [EndTimedOut(Running)], 0, limit);
    assert Next(s, Try(0)) == s.(attempts := []);
  }

  /** The first pass through the human node, answered while suspended, and a second one, answered too early. */
  function TwoPasses(first: Decision, second: Step): seq<Step> {
    [Open, Suspend, Answer(0, first, "x"), Try(0)] + [Open, second, Try(0), Suspend]
  }

  lemma {:induction false} FirstPass(first: Decision, limit: int)
    requires limit > 2
    ensures Run(Next, Init(0, limit), [Open, Suspend, Answer(0, first, "x"), Try(0)]) ==
            State(Running, Driving, [Written(Decide(first, "x"))], [], if first == Rejected then 1 else 0, limit)
  {
    RunFour(Next, Init(0, limit), Open, Suspend, Answer(0, first, "x"), Try(0));
  }

  lemma {:induction false} SecondPass(s: State, second: Step, answer: Pause)
    requires s.status == Running && s.engine == Driving && s.attempts == [] && |s.pauses| == 1
    requires (second == Answer(1, Approved, "y") && answer == Written(Decide(Approved, "y"))) ||
             (second == TimerFires(1, true) && answer == Written(Expire))
    ensures Run(Next, s, [Open, second, Try(0), Suspend]) ==
            State(PausedForHuman, Idle, s.pauses + [answer], [], s.rejections, s.limit)
  {
    RunFour(Next, s, Open, second, Try(0), Suspend);
    var shown := Next(s, Open);
    assert shown.Waits(1);
    assert Next(shown, second).pauses == s.pauses + [answer];
  }

  lemma {:induction false} TwoPassesEnd(first: Decision, second: Step, answer: Pause, limit: int)
    requires limit > 2
    requires (second == Answer(1, Approved, "y") && answer == Written(Decide(Approved, "y"))) ||
             (second == TimerFires(1, true) && answer == Written(Expire))
    ensures Run(Next, Init(0, limit), TwoPasses(first, second)) ==
            State(PausedForHuman, Idle, [Written(Decide(first, "x")), answer], [], if first == Rejected then 1 else 0, limit)
  {
    var steps := [Open, Suspend, Answer(0, first, "x"), Try(0)];
    RunConcat(Next, Init(0, limit), steps, [Open, second, Try(0), Suspend]);
    FirstPass(first, limit);
    SecondPass(Run(Next, Init(0, limit), steps), second, answer);
    assert [Written(Decide(first, "x"))] + [answer] == [Written(Decide(first, "x")), answer];
  }

  lemma {:induction false} RejectedRowsOfTwo(a: Pause, b: Pause)
    ensures RejectedRows([a, b]) == (if IsRejection(a) then 1 else 0) + (if IsRejection(b) then 1 else 0)
  {
    assert RejectedRows([a]) == if IsRejection(a) then 1 else 0;
    assert [a, b][..1] == [a];
  }

  /** The stuck pause is an approval, and recovery counts the rejection of the pass before it again. */
  lemma {:induction false} OldRejectionCountedAgain(limit: int)
    requires limit > 2
    ensures var s := Run(Next, Init(0, limit), TwoPasses(Rejected, Answer(1, Approved, "y")));
            && Stuck(s) && |s.pauses| == 2 && s.pauses[1].decision == Some(Approved)
            && s.rejections == RejectedRows(s.pauses) == 1
            && Next(Next(s, Recover(0)), Try(0)).rejections == 2
  {
    var second := Written(Decide(Approved, "y"));
    TwoPassesEnd(Rejected, Answer(1, Approved, "y"), second, limit);
    RejectedRowsOfTwo(Written(Decide(Rejected, "x")), second);
    RecoveryCounts(Run(Next, Init(0, limit), TwoPasses(Rejected, Answer(1, Approved, "y"))), 0);
  }

  /** The stuck pause has expired, and recovery carries the approval of the pass before it out again. */
  lemma {:induction false} OldApprovalCarriedOutAgain(limit: int)
    requires limit > 2
    ensures var s := Run(Next, Init(0, limit), TwoPasses(Approved, TimerFires(1, true)));
            && Stuck(s) && |s.pauses| == 2 && s.pauses[1].status == Expired
            && Next(Next(s, Recover(0)), Try(0)).status == Running
            && forall row: nat :: Next(s, Recover(row)).status != Failed
  {
    TwoPassesEnd(Approved, TimerFires(1, true), Written(Expire), limit);
    var s := Run(Next, Init(0, limit), TwoPasses(Approved, TimerFires(1, true)));
    assert s.Decides(0);
    RecoverStuck(s);
  }
}
