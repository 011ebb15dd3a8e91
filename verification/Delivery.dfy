/**
  Who delivers the result of a run that a conversation has triggered: the waiting conversation
  in-turn, the watch it leaves behind, or the notifiers of the engine, as interleaved steps.
  */
module Delivery {
  import opened Prelude
  import opened SopStatus

  /** Missed: the guarded flip matched nothing. Gone: the conversation has left it to the others. */
  datatype Bridge = Waiting | GivingUp | Missed | Answered | Gone

  /** Main is the first executeSop; Tail a resume; Chained an executeSop started by a resume. */
  datatype Driver = Idle | Main | Tail(human: bool) | Chained

  /** watch: the conversation's own push is armed; it reads once promiseDone. */
  datatype State = State(status: Status, push: bool, bridge: Bridge, driver: Driver, promiseDone: bool, watch: bool,
                         notifiers: nat, inTurn: nat, pushed: nat)
  {
    function Deliveries(): nat { inTurn + pushed }

    /** Pushes that are bound to happen once the run has ended with the flag up. */
    function Owed(): nat {
      (if watch then 1 else 0) + notifiers + (if driver == Chained then 1 else 0)
    }

    /** Nobody is left to deliver anything. */
    predicate Settled() {
      bridge in {Answered, Gone} && driver == Idle && Owed() == 0
    }
  }

  /** The conversation has set the flag to false and started the engine. */
  const INIT := State(Running, false, Waiting, Main, false, false, 0, 0, 0)

  datatype Step =
    | Poll
    | GiveUp
    | Flip
    | Requery
    | WatchReads
    | Notify
    | DriverEnds(to: Status)
    | Chain
    | ResumeHuman
    | ResumeTool
    | Outside(seen: Status, to: Status)

  /** to == Running is a driver that returns without a transition. */
  predicate CanEnd(driver: Driver, to: Status) {
    match driver
    case Idle => false
    case Tail(human) => to in {Completed, Running} || (!human && to in {Error, PausedForHuman, PausedForTool})
    case _ => to in {Completed, Running, Error, TimedOut, PausedForHuman, PausedForTool}
  }

  /** A chained driver notifies however it ended, a tail only when it completes, the first driver never. */
  function DriverLeaves(s: State, to: Status): State {
    s.(status := After(s.status, Running, to), driver := Idle, promiseDone := s.promiseDone || s.driver == Main,
       notifiers := s.notifiers + (if s.driver == Chained || (s.driver.Tail? && to == Completed) then 1 else 0))
  }

  function Answer(s: State): State {
    s.(bridge := Answered, inTurn := s.inTurn + 1)
  }

  function Leave(s: State): State {
    s.(bridge := Gone, watch := true)
  }

  /** One step; a step that is not enabled changes nothing. */
  function Next(s: State, step: Step): State {
    match step
    case Poll => if s.bridge == Waiting && Terminal(s.status) then Answer(s) else s
    case GiveUp => if s.bridge == Waiting && !Terminal(s.status) then s.(bridge := GivingUp) else s
    case Flip =>
      if s.bridge != GivingUp then s
      else if HandsOver(s.push, s.status) then Leave(s.(push := true))
      else s.(bridge := Missed)
    case Requery => if s.bridge != Missed then s else if Terminal(s.status) then Answer(s) else Leave(s)
    case WatchReads =>
      if s.watch && s.promiseDone
      then s.(watch := false, pushed := s.pushed + (if Terminal(s.status) then 1 else 0)) else s
    case Notify =>
      if s.notifiers > 0
      then s.(notifiers := s.notifiers - 1, pushed := s.pushed + (if Terminal(s.status) && s.push then 1 else 0)) else s
    case DriverEnds(to) => if CanEnd(s.driver, to) then DriverLeaves(s, to) else s
    case Chain => if s.driver.Tail? then s.(driver := Chained) else s
    case ResumeHuman =>
      if Admits(s.status, PausedForHuman, Running) && s.driver == Idle then s.(status := Running, driver := Tail(true)) else s
    case ResumeTool =>
      if Admits(s.status, PausedForTool, Running) && s.driver == Idle then s.(status := Running, driver := Tail(false)) else s
    case Outside(seen, to) => s.(status := Ended(s.status, seen, to))
  }

  // ---------- Who moves what ----------

  /**
    The status is moved by the driver of a running run, by a resume of the matching pause, and from
    outside; the tail of a human resume only ever completes it.
    */
  ghost predicate MayMove(s: State, step: Step, to: Status) {
    || (step == DriverEnds(to) && s.status == Running && s.driver != Idle && (s.driver == Tail(true) ==> to == Completed))
    || (step == ResumeHuman && s.status == PausedForHuman && to == Running)
    || (step == ResumeTool && s.status == PausedForTool && to == Running)
    || (step.Outside? && to in {Cancelled, TimedOut, Failed})
  }

  /** The conversation answers in-turn only what has ended, and gives up waiting only for what has not. */
  lemma {:induction false} WhoMovesWhat(s: State, step: Step)
    ensures Next(s, step).status != s.status ==> MayMove(s, step, Next(s, step).status)
    ensures s.bridge != Answered && Next(s, step).bridge == Answered ==> Terminal(s.status) && Next(s, step).inTurn == s.inTurn + 1
    ensures s.bridge != GivingUp && Next(s, step).bridge == GivingUp ==> s.bridge == Waiting && !Terminal(s.status)
    ensures s.bridge == GivingUp && Next(s, step).bridge == Gone ==> !s.push && Next(s, step).push && !Terminal(s.status)
  {
  }

  // ---------- Every run ----------

  ghost predicate Inv(s: State) {
    && (s.bridge == Gone <==> s.push)
    && (s.watch || s.pushed > 0 ==> s.bridge == Gone)
    && s.inTurn == (if s.bridge == Answered then 1 else 0)
    && (s.bridge == Missed ==> Terminal(s.status))
    && (s.driver == Main <==> !s.promiseDone)
    && (s.status in {PausedForHuman, PausedForTool} ==> s.driver == Idle)
  }

  lemma {:induction false} StepKeepsInv(s: State, step: Step)
    requires Inv(s)
    ensures Inv(Next(s, step))
    ensures Terminal(s.status) ==> Terminal(Next(s, step).status)
  {
  }

  lemma {:induction false} RunKeepsInv(s: State, steps: seq<Step>)
    requires Inv(s)
    ensures Inv(Run(Next, s, steps)) && (Terminal(s.status) ==> Terminal(Run(Next, s, steps).status))
  {
    if steps == [] {
    } else {
      RunKeepsInv(s, steps[..|steps| - 1]);
      StepKeepsInv(Run(Next, s, steps[..|steps| - 1]), steps[|steps| - 1]);
    }
  }

  /** Never both: an answered conversation gets no push, and answers at most once. */
  lemma {:induction false} NeverBoth(steps: seq<Step>)
    ensures var s := Run(Next, INIT, steps);
            s.inTurn <= 1 && (s.inTurn == 1 ==> s.pushed == 0) && (s.pushed > 0 ==> s.inTurn == 0)
  {
    RunKeepsInv(INIT, steps);
  }

  // ---------- After the end of the run ----------

  /** With the flag still down at the end, nothing is ever pushed. */
  lemma {:induction false} KeptByTheConversation(s: State, steps: seq<Step>)
    requires Inv(s) && Terminal(s.status) && !s.push
    ensures !Run(Next, s, steps).push && Run(Next, s, steps).pushed == 0
  {
    RunKeepsInv(s, steps);
    if steps == [] {
    } else {
      KeptByTheConversation(s, steps[..|steps| - 1]);
      RunKeepsInv(s, steps[..|steps| - 1]);
    }
  }

  lemma {:induction false} StepConserves(s: State, step: Step)
    requires Inv(s) && Terminal(s.status) && s.push && !s.driver.Tail?
    ensures var next := Next(s, step);
            next.push && !next.driver.Tail? && next.pushed + next.Owed() == s.pushed + s.Owed()
  {
  }

  /** With the flag up at the end and no resume in flight, pushes done and owed are conserved. */
  lemma {:induction false} PushesConserved(s: State, steps: seq<Step>)
    requires Inv(s) && Terminal(s.status) && s.push && !s.driver.Tail?
    ensures var last := Run(Next, s, steps);
            last.push && !last.driver.Tail? && last.pushed + last.Owed() == s.pushed + s.Owed()
  {
    if steps == [] {
    } else {
      var before := Run(Next, s, steps[..|steps| - 1]);
      PushesConserved(s, steps[..|steps| - 1]);
      RunKeepsInv(s, steps[..|steps| - 1]);
      StepConserves(before, steps[|steps| - 1]);
    }
  }

  /** A resume in flight at the end adds a push exactly when it completes or starts a chained driver. */
  lemma {:induction false} ResumeInFlight(s: State, step: Step)
    requires Inv(s) && Terminal(s.status) && s.push && s.driver.Tail?
    ensures var next := Next(s, step);
            next.pushed + next.Owed() == s.pushed + s.Owed() + (if step in {DriverEnds(Completed), Chain} then 1 else 0)
  {
  }

  function Distance(s: State): nat {
    (if s.bridge in {Answered, Gone} then 0 else if s.bridge == GivingUp then 2 else 1) +
    (if s.driver == Idle then 0 else 2) + (if s.watch then 1 else 0) + s.notifiers
  }

  function SettlingStep(s: State): Step {
    if s.bridge == Waiting then Poll
    else if s.bridge == GivingUp then Flip
    else if s.bridge == Missed then Requery
    else if s.driver != Idle then DriverEnds(Running)
    else if s.watch then WatchReads
    else Notify
  }

  lemma {:induction false} SettlingStepHelps(s: State)
    requires Inv(s) && Terminal(s.status) && !s.Settled()
    ensures Distance(Next(s, SettlingStep(s))) < Distance(s)
  {
  }

  /** After the end everything under way can come to rest. */
  lemma {:induction false} CanSettle(s: State, done: seq<Step>) returns (steps: seq<Step>)
    requires Inv(s) && Terminal(s.status)
    ensures Run(Next, s, steps).Settled()
    decreases Distance(Run(Next, s, done))
  {
    RunKeepsInv(s, done);
    var now := Run(Next, s, done);
    if now.Settled() {
      steps := done;
    } else {
      SettlingStepHelps(now);
      RunThen(Next, s, done, SettlingStep(now));
      steps := CanSettle(s, done + [SettlingStep(now)]);
    }
  }

  ghost predicate AlwaysOnce(s: State) {
    forall steps :: Run(Next, s, steps).Settled() ==> Run(Next, s, steps).Deliveries() == 1
  }

  lemma {:induction false} SettledDeliveries(s: State, steps: seq<Step>)
    requires Inv(s) && Terminal(s.status) && (s.push ==> !s.driver.Tail?) && Run(Next, s, steps).Settled()
    ensures Run(Next, s, steps).Deliveries() == if s.push then s.pushed + s.Owed() else 1
  {
    RunKeepsInv(s, steps);
    if s.push {
      PushesConserved(s, steps);
    } else {
      KeptByTheConversation(s, steps);
    }
  }

  lemma {:induction false} NoResumeInFlight(s: State)
    requires Inv(s) && Terminal(s.status) && (s.push ==> !s.driver.Tail?)
    ensures AlwaysOnce(s) <==> !s.push || s.pushed + s.Owed() == 1
  {
    forall steps | Run(Next, s, steps).Settled()
      ensures Run(Next, s, steps).Deliveries() == if s.push then s.pushed + s.Owed() else 1
    {
      SettledDeliveries(s, steps);
    }
    var steps := CanSettle(s, []);
    assert Run(Next, s, steps).Settled();
  }

  lemma {:induction false} OnceStaysOnce(s: State, step: Step)
    requires AlwaysOnce(s)
    ensures AlwaysOnce(Next(s, step))
  {
    forall steps | Run(Next, Next(s, step), steps).Settled() ensures Run(Next, Next(s, step), steps).Deliveries() == 1 {
      RunFrom(Next, s, step, steps);
    }
  }

  /**
    Exactly once? From the end of the run on, whatever the order of the rest, the result is delivered
    exactly once if and only if the conversation still holds it, or no resume is in flight and exactly
    one push is done or owed.
    */
  lemma {:induction false} ExactlyOnceIff(s: State)
    requires Inv(s) && Terminal(s.status)
    ensures AlwaysOnce(s) <==> !s.push || (!s.driver.Tail? && s.pushed + s.Owed() == 1)
  {
    if s.push && s.driver.Tail? {
      if AlwaysOnce(s) {
        OnceStaysOnce(s, DriverEnds(Running));
        OnceStaysOnce(s, DriverEnds(Completed));
        StepKeepsInv(s, DriverEnds(Running));
        StepKeepsInv(s, DriverEnds(Completed));
        NoResumeInFlight(Next(s, DriverEnds(Running)));
        NoResumeInFlight(Next(s, DriverEnds(Completed)));
        ResumeInFlight(s, DriverEnds(Running));
        ResumeInFlight(s, DriverEnds(Completed));
      }
    } else {
      NoResumeInFlight(s);
    }
  }

  // ---------- Which runs deliver once ----------

  /** Before the end nothing is pushed, and the first driver leaves the only push to the watch. */
  ghost predicate NotYetPushed(s: State) {
    && (!Terminal(s.status) ==> s.pushed == 0)
    && (s.driver == Main ==> s.notifiers == 0 && (s.bridge == Gone ==> s.watch))
  }

  lemma {:induction false} StepKeepsNotYet(s: State, step: Step)
    requires Inv(s) && NotYetPushed(s)
    ensures NotYetPushed(Next(s, step))
  {
  }

  lemma {:induction false} RunKeepsNotYet(steps: seq<Step>)
    ensures Inv(Run(Next, INIT, steps)) && NotYetPushed(Run(Next, INIT, steps))
  {
    RunKeepsInv(INIT, steps);
    if steps == [] {
    } else {
      RunKeepsNotYet(steps[..|steps| - 1]);
      StepKeepsNotYet(Run(Next, INIT, steps[..|steps| - 1]), steps[|steps| - 1]);
    }
  }

  /** What the watch and the notifiers on their way would push now. */
  function UnderWay(s: State): nat {
    (if s.watch then 1 else 0) + s.notifiers
  }

  /**
    Whether a push is bound to happen exactly once if this step ends the run, read before the step: the
    first driver may always end it; a chained driver, and a resume that completes, notify themselves,
    so nothing else may be under way; a resume that ends in an error needs one push under way; and so
    does an end from outside, which must not meet a resume in flight, a chained driver counting as one.
    */
  predicate EndsOnce(s: State, step: Step) {
    match step
    case DriverEnds(to) =>
      s.driver == Main || UnderWay(s) == (if s.driver == Chained || to == Completed then 0 else 1)
    case _ => !s.driver.Tail? && UnderWay(s) + (if s.driver == Chained then 1 else 0) == 1
  }

  lemma {:induction false} EndingStep(s: State, step: Step)
    requires Inv(s) && NotYetPushed(s) && !Terminal(s.status) && Terminal(Next(s, step).status)
    ensures Next(s, step).push == s.push
    ensures s.push ==> (EndsOnce(s, step) <==>
              !Next(s, step).driver.Tail? && Next(s, step).pushed + Next(s, step).Owed() == 1)
  {
  }

  /**
    Which runs deliver exactly once: of all runs from the start, read when the step that ends them is
    about to be taken. It is never more and never less, in whatever order the rest happens, if and only
    if the conversation has not handed over or the ending step ends once.
    */
  lemma {:induction false} DeliversOnceIff(steps: seq<Step>, step: Step)
    requires !Terminal(Run(Next, INIT, steps).status) && Terminal(Next(Run(Next, INIT, steps), step).status)
    ensures var s := Run(Next, INIT, steps);
            AlwaysOnce(Next(s, step)) <==> !s.push || EndsOnce(s, step)
  {
    var s := Run(Next, INIT, steps);
    RunKeepsNotYet(steps);
    StepKeepsInv(s, step);
    EndingStep(s, step);
    ExactlyOnceIff(Next(s, step));
  }

  /** Neither a suspension nor an end from outside: the waiting conversation against the first driver. */
  predicate TwoParty(step: Step) {
    !step.Outside? && step != DriverEnds(PausedForHuman) && step != DriverEnds(PausedForTool)
  }

  ghost predicate OnlyMain(s: State) {
    && s.status !in {PausedForHuman, PausedForTool} && s.driver in {Main, Idle} && s.notifiers == 0
    && (Terminal(s.status) && s.bridge == Gone ==> s.pushed == if s.watch then 0 else 1)
    && (!Terminal(s.status) && s.bridge == Gone && s.driver == Main ==> s.watch)
    && (!Terminal(s.status) ==> s.pushed == 0)
  }

  lemma {:induction false} StepKeepsOnlyMain(s: State, step: Step)
    requires Inv(s) && OnlyMain(s) && TwoParty(step)
    ensures OnlyMain(Next(s, step))
  {
  }

  lemma {:induction false} RunKeepsOnlyMain(steps: seq<Step>)
    requires forall i :: 0 <= i < |steps| ==> TwoParty(steps[i])
    ensures OnlyMain(Run(Next, INIT, steps))
  {
    if steps == [] {
    } else {
      RunKeepsOnlyMain(steps[..|steps| - 1]);
      RunKeepsInv(INIT, steps[..|steps| - 1]);
      StepKeepsOnlyMain(Run(Next, INIT, steps[..|steps| - 1]), steps[|steps| - 1]);
    }
  }

  /** In that race, in every interleaving, the result is delivered exactly once. */
  lemma {:induction false} TwoPartiesDeliverOnce(steps: seq<Step>)
    requires forall i :: 0 <= i < |steps| ==> TwoParty(steps[i])
    requires Terminal(Run(Next, INIT, steps).status) && Run(Next, INIT, steps).Settled()
    ensures Run(Next, INIT, steps).Deliveries() == 1
  {
    RunKeepsInv(INIT, steps);
    RunKeepsOnlyMain(steps);
  }

  // ---------- Both failures happen ----------

  /** Cancelled while suspended after the hand-over: the watch has read too early and nobody else will. */
  lemma {:induction false} NeverDelivered()
    ensures exists steps :: Run(Next, INIT, steps).Settled() && Terminal(Run(Next, INIT, steps).status) &&
                            Run(Next, INIT, steps).Deliveries() == 0
  {
    var cancel := Outside(PausedForHuman, Cancelled);
    var steps := [GiveUp, Flip, DriverEnds(PausedForHuman), WatchReads];
    RunFour(Next, INIT, GiveUp, Flip, DriverEnds(PausedForHuman), WatchReads);
    RunThen(Next, INIT, steps, cancel);
    assert Run(Next, INIT, steps + [cancel]) == State(Cancelled, true, Gone, Idle, true, false, 0, 0, 0);
  }

  /** A resumed tool run completes before the watch of the first driver reads: both of them push. */
  lemma {:induction false} DeliveredTwice()
    ensures exists steps :: Run(Next, INIT, steps).Settled() && Run(Next, INIT, steps).Deliveries() == 2
  {
    var steps := [GiveUp, Flip, DriverEnds(PausedForTool), ResumeTool];
    RunFour(Next, INIT, GiveUp, Flip, DriverEnds(PausedForTool), ResumeTool);
    HandedOverAndResumed();
    RunThen(Next, INIT, steps, DriverEnds(Completed));
    RunThen(Next, INIT, steps + [DriverEnds(Completed)], WatchReads);
    RunThen(Next, INIT, steps + [DriverEnds(Completed)] + [WatchReads], Notify);
    BothPush();
  }

  const RESUMED := State(Running, true, Gone, Tail(false), true, true, 0, 0, 0)

  lemma {:induction false} HandedOverAndResumed()
    ensures Next(Next(Next(Next(INIT, GiveUp), Flip), DriverEnds(PausedForTool)), ResumeTool) == RESUMED
  {
  }

  lemma {:induction false} BothPush()
    ensures Next(Next(Next(RESUMED, DriverEnds(Completed)), WatchReads), Notify) ==
            State(Completed, true, Gone, Idle, true, false, 0, 0, 2)
  {
  }
}
