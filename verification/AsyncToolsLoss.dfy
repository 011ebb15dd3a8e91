/**
  What is lost when part of the suspend and resume protocol fails: a query that throws, a second driver,
  a crash, or a call that no watchdog guards.
  */
module AsyncToolsLoss {
  import opened Prelude
  import opened SopStatus
  import opened AsyncTools

  /** The tasks that this kind of watcher is about to look at. */
  function TasksOf(s: State, watcher: Watcher): (tasks: seq<nat>) {
    match watcher
    case Counter => s.counting
    case Rechecker => s.rechecks
    case Resumer => seq(|s.attempts|, i requires 0 <= i < |s.attempts| => s.attempts[i].task)
  }

  predicate WatchesTask(s: State, watcher: Watcher, k: nat) {
    k < |TasksOf(s, watcher)| && TasksOf(s, watcher)[k] == s.task
  }

  /** This watcher looks at the suspended task, and no other one does. */
  ghost predicate SoleWatcher(s: State, watcher: Watcher, k: nat) {
    WatchesTask(s, watcher, k) && forall w: Watcher, j: nat :: WatchesTask(s, w, j) ==> w == watcher && j == k
  }

  lemma {:induction false} WatchedIff(s: State)
    ensures Watched(s, s.task) <==> exists w: Watcher, j: nat :: WatchesTask(s, w, j)
  {
    if s.task in s.counting {
      var j :| 0 <= j < |s.counting| && s.counting[j] == s.task;
      assert WatchesTask(s, Counter, j);
    }
    if s.task in s.rechecks {
      var j :| 0 <= j < |s.rechecks| && s.rechecks[j] == s.task;
      assert WatchesTask(s, Rechecker, j);
    }
    if a :| a in s.attempts && a.task == s.task {
      var j :| 0 <= j < |s.attempts| && s.attempts[j] == a;
      assert WatchesTask(s, Resumer, j);
    }
    if w: Watcher, j: nat :| WatchesTask(s, w, j) {
      if w == Resumer {
        assert s.attempts[j] in s.attempts;
      }
    }
  }

  lemma {:induction false} DropShifts(s: State, watcher: Watcher, k: nat)
    requires k < |TasksOf(s, watcher)|
    ensures var next := Next(s, Drop(watcher, k));
            && TasksOf(next, watcher) == TasksOf(s, watcher)[..k] + TasksOf(s, watcher)[k + 1..]
            && next.rows == s.rows && next.task == s.task && next.status == s.status
            && forall w: Watcher :: w != watcher ==> TasksOf(next, w) == TasksOf(s, w)
  {
  }

  /** Where a watcher stood before another one was dropped. */
  function Before(dropped: Watcher, k: nat, w: Watcher, j: nat): nat {
    if w == dropped && j >= k then j + 1 else j
  }

  lemma {:induction false} StoodBefore(s: State, dropped: Watcher, k: nat, w: Watcher, j: nat)
    requires k < |TasksOf(s, dropped)|
    ensures WatchesTask(Next(s, Drop(dropped, k)), w, j) <==> WatchesTask(s, w, Before(dropped, k, w, j))
  {
    DropShifts(s, dropped, k);
  }

  /** Another watcher of the suspended task than this one. */
  ghost predicate OtherWatcher(s: State, watcher: Watcher, k: nat) {
    exists w: Watcher, j: nat :: WatchesTask(s, w, j) && !(w == watcher && j == k)
  }

  lemma {:induction false} RemainingIsOther(s: State, watcher: Watcher, k: nat)
    requires k < |TasksOf(s, watcher)| && Watched(Next(s, Drop(watcher, k)), s.task)
    ensures OtherWatcher(s, watcher, k)
  {
    var next := Next(s, Drop(watcher, k));
    WatchedIff(next);
    DropShifts(s, watcher, k);
    var w: Watcher, j: nat :| WatchesTask(next, w, j);
    StoodBefore(s, watcher, k, w, j);
  }

  lemma {:induction false} OtherRemains(s: State, watcher: Watcher, k: nat)
    requires k < |TasksOf(s, watcher)| && OtherWatcher(s, watcher, k)
    ensures Watched(Next(s, Drop(watcher, k)), s.task)
  {
    var next := Next(s, Drop(watcher, k));
    WatchedIff(next);
    DropShifts(s, watcher, k);
    var w: Watcher, j: nat :| WatchesTask(s, w, j) && !(w == watcher && j == k);
    StoodBefore(s, watcher, k, w, if w == watcher && j > k then j - 1 else j);
  }

  /**
    A count, re-check or resume that throws loses the wake-up of a suspended execution exactly when
    it was the only one for the suspended task, none of its calls is pending and no driver is in it.
    */
  lemma {:induction false} DropLosesWakeUpIff(s: State, watcher: Watcher, k: nat)
    requires s.Suspended() && NoLostWakeUp(s) && k < |TasksOf(s, watcher)|
    ensures !NoLostWakeUp(Next(s, Drop(watcher, k))) <==>
            !s.HasPending(s.task) && s.task !in s.drivers && SoleWatcher(s, watcher, k)
  {
    var next := Next(s, Drop(watcher, k));
    DropShifts(s, watcher, k);
    assert next.HasPending(s.task) <==> s.HasPending(s.task);
    assert next.drivers == s.drivers;
    WatchedIff(s);
    if Watched(next, s.task) {
      RemainingIsOther(s, watcher, k);
    } else if OtherWatcher(s, watcher, k) {
      OtherRemains(s, watcher, k);
    }
  }

  // ---------- A second driver ----------

  /** This driver is in the task, and no other one is. */
  ghost predicate SoleDriver(s: State, d: nat) {
    && d < |s.drivers| && s.drivers[d] == s.task
    && forall other: nat :: other < |s.drivers| && s.drivers[other] == s.task ==> other == d
  }

  lemma {:induction false} RemainingDrivers(drivers: seq<nat>, d: nat, task: nat)
    requires d < |drivers|
    ensures task in Without(drivers, d) <==> exists other :: 0 <= other < |drivers| && other != d && drivers[other] == task
  {
    var rest := Without(drivers, d);
    if task in rest {
      var i :| 0 <= i < |rest| && rest[i] == task;
      assert drivers[if i < d then i else i + 1] == task;
    }
    if other :| 0 <= other < |drivers| && other != d && drivers[other] == task {
      assert rest[if other < d then other else other - 1] == task;
    }
  }

  /**
    A driver that ends in a task, while another driver has suspended the execution in it, loses the wake-up
    exactly when it is the last driver there, no call of the task is pending and nobody watches it.
    */
  lemma {:induction false} LeavingLosesWakeUpIff(s: State, d: nat, to: Status)
    requires s.Suspended() && NoLostWakeUp(s) && to != PausedForTool && Leaves(s, DriverEnds(d, to))
    ensures !NoLostWakeUp(Next(s, DriverEnds(d, to))) <==>
            !s.HasPending(s.task) && !Watched(s, s.task) && SoleDriver(s, d)
  {
    var next := Next(s, DriverEnds(d, to));
    assert next.HasPending(s.task) <==> s.HasPending(s.task);
    RemainingDrivers(s.drivers, d, s.task);
  }

  /** Both drivers in task 0: the second came by a second attempt, after a restart had suspended the run. */
  const DOUBLED := State(Running, [0, 0], 0, 1, 2, [Row(0, Some(Callback), true)], [], [], [],
                         [Mark.Suspended, Resumed, Mark.Suspended, Resumed])

  function Doubling(): seq<Step> {
    [Dispatch(0, true), Suspend(0), Settle(0, Callback), Count(0)] + [Recheck(0), Resume(0), FindsStale, Restart] +
    [Suspend(1), Recheck(0), Resume(0), Resume(0)]
  }

  /** One of them suspends the run, the other fails its call and ends. */
  function Losing(): seq<Step> {
    [Dispatch(1, true), Suspend(0), Recheck(0), DispatchFails(0, 1)]
  }

  lemma {:induction false} TwoAttempts()
    ensures Run(Next, INIT, [Dispatch(0, true), Suspend(0), Settle(0, Callback), Count(0)]) ==
            State(PausedForTool, [], 0, 0, 1, [Row(0, Some(Callback), true)], [], [0], [Attempt(0, 1)], [Mark.Suspended])
  {
    RunFour(Next, INIT, Dispatch(0, true), Suspend(0), Settle(0, Callback), Count(0));
    var two := Next(Next(INIT, Dispatch(0, true)), Suspend(0));
    assert two == State(PausedForTool, [], 0, 0, 1, [Row(0, None, true)], [], [0], [], [Mark.Suspended]);
    assert Next(two, Settle(0, Callback)) ==
           State(PausedForTool, [], 0, 0, 1, [Row(0, Some(Callback), true)], [0], [0], [], [Mark.Suspended]);
  }

  lemma {:induction false} SecondDriver(s: State)
    requires s == State(PausedForTool, [], 0, 0, 1, [Row(0, Some(Callback), true)], [], [0], [Attempt(0, 1)],
                        [Mark.Suspended])
    ensures Run(Next, s, [Recheck(0), Resume(0), FindsStale, Restart]) ==
            State(Running, [0, 1], 0, 0, 2, s.rows, [], [], [Attempt(0, 1)], [Mark.Suspended, Resumed])
  {
    RunFour(Next, s, Recheck(0), Resume(0), FindsStale, Restart);
    var rechecked := Next(s, Recheck(0));
    assert rechecked == s.(rechecks := [], attempts := [Attempt(0, 1), Attempt(0, 1)]);
    assert Next(rechecked, Resume(0)) ==
           State(Running, [0], 0, 0, 1, s.rows, [], [], [Attempt(0, 1)], [Mark.Suspended, Resumed]);
  }

  const THIRD := [Mark.Suspended, Resumed, Mark.Suspended]

  lemma {:induction false} RestartSuspends(s: State)
    requires s == State(Running, [0, 1], 0, 0, 2, [Row(0, Some(Callback), true)], [], [], [Attempt(0, 1)],
                        [Mark.Suspended, Resumed])
    ensures Next(Next(s, Suspend(1)), Recheck(0)) ==
            State(PausedForTool, [0], 0, 1, 2, s.rows, [], [], [Attempt(0, 1), Attempt(1, 1)], THIRD)
  {
    var suspended := Next(s, Suspend(1));
    assert suspended == State(PausedForTool, [0], 0, 1, 2, s.rows, [], [1], [Attempt(0, 1)], THIRD);
    assert !suspended.HasPending(1);
  }

  lemma {:induction false} OldAttemptResumes(s: State)
    requires s == State(PausedForTool, [0], 0, 1, 2, [Row(0, Some(Callback), true)], [], [],
                        [Attempt(0, 1), Attempt(1, 1)], THIRD)
    ensures Next(Next(s, Resume(0)), Resume(0)) == DOUBLED
  {
    assert Next(s, Resume(0)) == DOUBLED.(attempts := [Attempt(1, 1)]);
  }

  lemma {:induction false} BothInOneTask(s: State)
    requires s == State(Running, [0, 1], 0, 0, 2, [Row(0, Some(Callback), true)], [], [], [Attempt(0, 1)],
                        [Mark.Suspended, Resumed])
    ensures Run(Next, s, [Suspend(1), Recheck(0), Resume(0), Resume(0)]) == DOUBLED
  {
    RunFour(Next, s, Suspend(1), Recheck(0), Resume(0), Resume(0));
    RestartSuspends(s);
    OldAttemptResumes(Next(Next(s, Suspend(1)), Recheck(0)));
  }

  lemma {:induction false} FirstOfTwoSuspends()
    ensures var dispatched := Next(DOUBLED, Dispatch(1, true));
            && dispatched == DOUBLED.(rows := [Row(0, Some(Callback), true), Row(0, None, true)])
            && Next(Next(dispatched, Suspend(0)), Recheck(0)) ==
               State(PausedForTool, [0], 0, 0, 2, dispatched.rows, [], [], [], DOUBLED.log + [Mark.Suspended])
  {
    var dispatched := Next(DOUBLED, Dispatch(1, true));
    var suspended := Next(dispatched, Suspend(0));
    assert suspended.rechecks == [0] && suspended.drivers == [0] && suspended.rows[1].settler.None?;
    assert suspended.HasPending(0);
  }

  lemma {:induction false} DriverFailsItsCall()
    ensures OneLeftInTheTask(Run(Next, DOUBLED, Losing()))
  {
    RunFour(Next, DOUBLED, Dispatch(1, true), Suspend(0), Recheck(0), DispatchFails(0, 1));
    FirstOfTwoSuspends();
  }

  lemma {:induction false} DoublingEnds()
    ensures Run(Next, INIT, Doubling()) == DOUBLED
  {
    var a, b := [Dispatch(0, true), Suspend(0), Settle(0, Callback), Count(0)], [Recheck(0), Resume(0), FindsStale, Restart];
    TwoAttempts();
    SecondDriver(Run(Next, INIT, a));
    BothInOneTask(Run(Next, Run(Next, INIT, a), b));
    RunConcat(Next, INIT, a, b);
    RunConcat(Next, INIT, a + b, [Suspend(1), Recheck(0), Resume(0), Resume(0)]);
  }

  lemma {:induction false} NothingDropped()
    ensures Reliable(Doubling() + Losing() + [DriverEnds(0, Error)])
  {
    assert Reliable(Doubling()) && Reliable(Losing());
  }

  /** It does happen: nothing is lost on the way, and yet the execution is stranded. */
  lemma {:induction false} TwoDriversLoseAWakeUp()
    ensures Reliable(Doubling() + Losing() + [DriverEnds(0, Error)])
    ensures Stranded(Run(Next, INIT, Doubling() + Losing() + [DriverEnds(0, Error)]))
  {
    NothingDropped();
    BothSuspended();
    RunThen(Next, INIT, Doubling() + Losing(), DriverEnds(0, Error));
    LastDriverEnds(Run(Next, INIT, Doubling() + Losing()));
  }

  ghost predicate OneLeftInTheTask(s: State) {
    && s.Suspended() && s.task == 0 && s.drivers == [0] && s.recoveries == 0
    && s.counting == s.rechecks == [] && s.attempts == []
    && s.rows == [Row(0, Some(Callback), true), Row(0, Some(DispatchError), true)]
  }

  lemma {:induction false} BothSuspended()
    ensures OneLeftInTheTask(Run(Next, INIT, Doubling() + Losing()))
  {
    DoublingEnds();
    RunConcat(Next, INIT, Doubling(), Losing());
    DriverFailsItsCall();
  }

  lemma {:induction false} LastDriverEnds(s: State)
    requires OneLeftInTheTask(s)
    ensures Stranded(Next(s, DriverEnds(0, Error)))
  {
  }

  // ---------- A retry ----------

  /** The driver that cold recovery starts on a row in error works, and yet the row never leaves error by it. */
  lemma {:induction false} RetryStaysInError(s: State, steps: seq<Step>)
    requires s.status == Error && forall i :: 0 <= i < |steps| ==> !steps[i].Outside?
    ensures Run(Next, s, steps).status == Error
    ensures Next(Next(s, FindsStale), Restart).drivers == s.drivers + [s.tasks]
  {
    if steps == [] {
    } else {
      RetryStaysInError(s, steps[..|steps| - 1]);
    }
  }

  // ---------- For good ----------

  /** No driver, restart, count, re-check or resume, and no call that could still settle. */
  ghost predicate NothingUnderWay(s: State) {
    && s.drivers == [] && s.recoveries == 0
    && s.counting == s.rechecks == [] && s.attempts == []
    && forall i :: 0 <= i < |s.rows| ==> s.rows[i].settler.Some?
  }

  /** Then nothing but an outside end ever leaves paused_for_tool. */
  ghost predicate Stranded(s: State) {
    s.Suspended() && NothingUnderWay(s)
  }

  lemma {:induction false} StrandedForGood(s: State, steps: seq<Step>)
    requires Stranded(s) && forall i :: 0 <= i < |steps| ==> !steps[i].Outside?
    ensures Run(Next, s, steps) == s
  {
    if steps == [] {
    } else {
      StrandedForGood(s, steps[..|steps| - 1]);
    }
  }

  /** Stranded, or ended from outside since then. */
  ghost predicate Dead(s: State) {
    s.status in {PausedForTool, Cancelled, TimedOut, Failed} && NothingUnderWay(s)
  }

  lemma {:induction false} DeadForGood(s: State, steps: seq<Step>)
    requires Dead(s)
    ensures Dead(Run(Next, s, steps))
  {
    if steps == [] {
    } else {
      DeadForGood(s, steps[..|steps| - 1]);
      DeadStays(Run(Next, s, steps[..|steps| - 1]), steps[|steps| - 1]);
    }
  }

  lemma {:induction false} DeadStays(s: State, step: Step)
    requires Dead(s)
    ensures Dead(Next(s, step))
  {
  }

  /**
    After a crash a suspended execution can ever run again if and only if some call is pending, of whatever
    task: cold recovery does not look for it.
    */
  lemma {:induction false} CrashStrandsIff(s: State)
    requires s.Suspended()
    ensures (exists steps :: Run(Next, Next(s, Crash), steps).status == Running) <==> exists t: nat :: s.HasPending(t)
  {
    var crashed := Next(s, Crash);
    if t: nat :| s.HasPending(t) {
      assert crashed.HasPending(t);
      var steps := RunsAgain(crashed, t);
    } else {
      assert forall i :: 0 <= i < |s.rows| && s.rows[i].settler.None? ==> s.HasPending(s.rows[i].task);
      forall steps ensures Run(Next, crashed, steps).status != Running {
        DeadForGood(crashed, steps);
      }
    }
  }

  lemma {:induction false} RunsAgain(s: State, t: nat) returns (steps: seq<Step>)
    requires s.Suspended() && s.HasPending(t)
    ensures Run(Next, s, steps).status == Running
  {
    var drain := Drain(s, t, 0);
    steps := ResumeAfter(s, drain);
  }

  /** A clean suspension that waits for a call which no watchdog guards. */
  ghost predicate WaitsUnguarded(s: State, call: nat) {
    s.Suspended() && StillItsOwn(s, s.task) && call < |s.rows| && s.rows[call] == Row(s.task, None, false)
  }

  /** Without its callback it waits for ever, whatever else happens short of an outside end. */
  lemma {:induction false} UnguardedCallNeedsItsCallback(s: State, call: nat, steps: seq<Step>)
    requires WaitsUnguarded(s, call)
    requires forall i :: 0 <= i < |steps| ==> steps[i] != Settle(call, Callback) && !steps[i].Outside?
    ensures WaitsUnguarded(Run(Next, s, steps), call)
  {
    if steps == [] {
    } else {
      var n := |steps| - 1;
      UnguardedCallNeedsItsCallback(s, call, steps[..n]);
      var before := Run(Next, s, steps[..n]);
      assert before.HasPending(before.task);
      StepStaysItsOwn(before, steps[n], before.task);
    }
  }
}
