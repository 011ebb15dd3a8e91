/**
  The suspend and resume protocol of asynchronous tools, as an interleaving of its atomic steps: the
  engine dispatches calls and suspends, callbacks and watchdogs settle calls and count what is left,
  the engine re-checks after suspending, and whoever counted nothing left tries to resume. Cold recovery
  can start a second driver beside one that is still at work.
  */
module AsyncTools {
  import opened Prelude
  import opened SopStatus

  datatype Finisher = Callback | Watchdog | DispatchError

  /**
    A journal row of a tool call; settler == None is a pending row. A call whose dispatch registers no
    watchdog, as one that fails at once, is not guarded.
    */
  datatype Row = Row(task: nat, settler: Option<Finisher>, guarded: bool)

  /** A resume on its way; born is the number of calls dispatched when its task was counted free. */
  datatype Attempt = Attempt(task: nat, born: nat)

  datatype Mark = Suspended | Resumed

  /**
    drivers holds the node task that each driver at work is in, recoveries counts those that cold recovery
    is about to start; task is the task of the latest suspension, tasks the next fresh one. counting and
    rechecks hold the tasks whose pending rows somebody is about to count. log records the suspensions
    and resumptions that took effect.
    */
  datatype State = State(status: Status, drivers: seq<nat>, recoveries: nat, task: nat, tasks: nat, rows: seq<Row>,
                         counting: seq<nat>, rechecks: seq<nat>, attempts: seq<Attempt>, log: seq<Mark>)
  {
    predicate HasPending(t: nat) {
      exists i :: 0 <= i < |rows| && rows[i].task == t && rows[i].settler.None?
    }

    predicate Suspended() { status == PausedForTool }
  }

  /** The journal of one execution, as dispatchers, callbacks, watchdogs and the engine use it. */
  class Journal {
    var rows: seq<Row>

    constructor ()
      ensures rows == []
    {
      rows := [];
    }

    method WritePending(task: nat, guarded: bool)
      modifies this
      ensures rows == old(rows) + [Row(task, None, guarded)]
    {
      rows := rows + [Row(task, None, guarded)];
    }

    /** The guarded update of one call, then the count of what its task still has pending. */
    method ApplyTerminal(call: nat, settler: Finisher) returns (applied: bool, remaining: nat)
      modifies this
      ensures applied <==> call < |old(rows)| && old(rows)[call].settler.None?
      ensures rows == if applied then old(rows)[call := old(rows)[call].(settler := Some(settler))] else old(rows)
      ensures remaining == if applied then PendingCount(rows, rows[call].task) else 0
    {
      if call >= |rows| || rows[call].settler.Some? {
        return false, 0;
      }
      rows := rows[call := rows[call].(settler := Some(settler))];
      return true, PendingCount(rows, rows[call].task);
    }

    method CountPendingToolCalls(task: nat) returns (count: nat)
      ensures count == PendingCount(rows, task)
    {
      count := PendingCount(rows, task);
    }
  }

  function PendingCount(rows: seq<Row>, task: nat): nat {
    if rows == [] then 0
    else
      var last := rows[|rows| - 1];
      PendingCount(rows[..|rows| - 1], task) + (if last.task == task && last.settler.None? then 1 else 0)
  }

  /** A count of zero is what the steps below look at. */
  lemma {:induction false} NothingPendingIff(s: State, task: nat)
    ensures PendingCount(s.rows, task) == 0 <==> !s.HasPending(task)
    decreases |s.rows|
  {
    var n := |s.rows|;
    if n == 0 {
    } else {
      var init := s.(rows := s.rows[..n - 1]);
      NothingPendingIff(init, task);
      if i :| 0 <= i < n - 1 && s.rows[i].task == task && s.rows[i].settler.None? {
        assert init.rows[i] == s.rows[i];
      }
    }
  }

  const INIT := State(Running, [0], 0, 0, 1, [], [], [], [], [])

  /** Who holds a wake-up: one about to count, one about to re-check, or one about to resume. */
  datatype Watcher = Counter | Rechecker | Resumer

  /**
    Drop is a count, re-check or resume whose query throws; a crash drops all of them. FindsStale is cold
    recovery reading a stale row in running or error, Restart the executeSop that it then starts.
    */
  datatype Step =
    | Dispatch(d: nat, guarded: bool)
    | Settle(call: nat, settler: Finisher)
    | DispatchFails(d: nat, call: nat)
    | Count(k: nat)
    | Suspend(d: nat)
    | Recheck(k: nat)
    | Resume(k: nat)
    | NextTask(d: nat)
    | DriverEnds(d: nat, to: Status)
    | HumanResume
    | FindsStale
    | Restart
    | Outside(seen: Status, to: Status)
    | Drop(watcher: Watcher, k: nat)
    | Crash

  predicate Loses(step: Step) {
    step.Drop? || step == Crash
  }

  /** No step of the run loses anything under way. */
  ghost predicate Reliable(steps: seq<Step>) {
    forall i :: 0 <= i < |steps| ==> !Loses(steps[i])
  }

  predicate CanSettle(s: State, call: nat) {
    call < |s.rows| && s.rows[call].settler.None?
  }

  function SettleRow(s: State, call: nat, settler: Finisher): State
    requires CanSettle(s, call)
  {
    s.(rows := s.rows[call := s.rows[call].(settler := Some(settler))])
  }

  /** A count of the pending rows of a task; finding none launches a resume. */
  function Counted(s: State, task: nat): State {
    if s.HasPending(task) then s else s.(attempts := s.attempts + [Attempt(task, |s.rows|)])
  }

  /** A driver starts in a fresh task. */
  function Started(s: State): State {
    s.(drivers := s.drivers + [s.tasks], tasks := s.tasks + 1)
  }

  /** The driver suspends, if the run is still running, and in any case re-checks its task. */
  function Parked(s: State, d: nat): State
    requires d < |s.drivers|
  {
    s.(status := After(s.status, Running, PausedForTool), drivers := Without(s.drivers, d),
       task := if s.status == Running then s.drivers[d] else s.task, rechecks := s.rechecks + [s.drivers[d]],
       log := if s.status == Running then s.log + [Mark.Suspended] else s.log)
  }

  function Attempted(s: State, k: nat): State
    requires k < |s.attempts|
  {
    var tried := s.(attempts := Without(s.attempts, k));
    if Admits(s.status, PausedForTool, Running)
    then tried.(status := Running, drivers := s.drivers + [s.attempts[k].task], log := s.log + [Resumed]) else tried
  }

  /** One step; a step that is not enabled changes nothing. */
  function Next(s: State, step: Step): State {
    match step
    case Dispatch(d, guarded) => if d < |s.drivers| then s.(rows := s.rows + [Row(s.drivers[d], None, guarded)]) else s
    case Settle(call, settler) =>
      if CanSettle(s, call) && settler != DispatchError && (settler == Watchdog ==> s.rows[call].guarded)
      then SettleRow(s, call, settler).(counting := s.counting + [s.rows[call].task]) else s
    case DispatchFails(d, call) =>
      if d < |s.drivers| && CanSettle(s, call) && s.rows[call].task == s.drivers[d]
      then SettleRow(s, call, DispatchError) else s
    case Count(k) => if k < |s.counting| then Counted(s.(counting := Without(s.counting, k)), s.counting[k]) else s
    case Recheck(k) => if k < |s.rechecks| then Counted(s.(rechecks := Without(s.rechecks, k)), s.rechecks[k]) else s
    case Suspend(d) => if d < |s.drivers| then Parked(s, d) else s
    case Resume(k) => if k < |s.attempts| then Attempted(s, k) else s
    case NextTask(d) => if d < |s.drivers| then s.(drivers := s.drivers[d := s.tasks], tasks := s.tasks + 1) else s
    case DriverEnds(d, to) =>
      if d < |s.drivers| && to != PausedForTool
      then s.(drivers := Without(s.drivers, d), status := After(s.status, Running, to)) else s
    case HumanResume => if Admits(s.status, PausedForHuman, Running) then Started(s.(status := Running)) else s
    case FindsStale => if s.status in {Running, Error} then s.(recoveries := s.recoveries + 1) else s
    case Restart => if s.recoveries > 0 then Started(s.(recoveries := s.recoveries - 1)) else s
    case Outside(seen, to) => s.(status := Ended(s.status, seen, to))
    case Drop(Counter, k) => if k < |s.counting| then s.(counting := Without(s.counting, k)) else s
    case Drop(Rechecker, k) => if k < |s.rechecks| then s.(rechecks := Without(s.rechecks, k)) else s
    case Drop(Resumer, k) => if k < |s.attempts| then s.(attempts := Without(s.attempts, k)) else s
    case Crash => s.(drivers := [], recoveries := 0, counting := [], rechecks := [], attempts := [])
  }

  // ---------- Invariants of every run ----------

  /** Somebody will still look at this task's pending rows, or has looked and is about to resume. */
  ghost predicate Watched(s: State, task: nat) {
    task in s.rechecks || task in s.counting || exists a :: a in s.attempts && a.task == task
  }

  /** The task of the suspension has a pending call, or is watched, or a driver is still in it. */
  ghost predicate Woken(s: State) {
    s.HasPending(s.task) || Watched(s, s.task) || s.task in s.drivers
  }

  /** A suspended execution waits for a pending call or is being woken. */
  ghost predicate NoLostWakeUp(s: State) {
    s.Suspended() ==> Woken(s)
  }

  /** What an attempt knows for sure: every call of its task that was dispatched before it is settled. */
  ghost predicate AttemptSound(s: State, a: Attempt) {
    a.born <= |s.rows| && forall i :: 0 <= i < a.born && s.rows[i].task == a.task ==> s.rows[i].settler.Some?
  }

  ghost predicate AttemptsSound(s: State) {
    forall a :: a in s.attempts ==> AttemptSound(s, a)
  }

  /** Suspensions and resumptions alternate, so each suspension is resumed at most once. */
  ghost predicate LogAlternates(s: State) {
    && (forall i :: 0 <= i < |s.log| ==> s.log[i] == if i % 2 == 0 then Mark.Suspended else Resumed)
    && (s.Suspended() ==> |s.log| % 2 == 1)
    && (s.status in {Running, PausedForHuman, Completed, Error} ==> |s.log| % 2 == 0)
  }

  /** Every task in use is older than the next fresh one. */
  ghost predicate TasksMinted(s: State) {
    && s.task < s.tasks
    && (forall t :: t in s.drivers || t in s.counting || t in s.rechecks ==> t < s.tasks)
    && (forall i :: 0 <= i < |s.rows| ==> s.rows[i].task < s.tasks)
    && forall a :: a in s.attempts ==> a.task < s.tasks
  }

  ghost predicate Inv(s: State) {
    AttemptsSound(s) && LogAlternates(s) && TasksMinted(s)
  }

  lemma {:induction false} StepMintsTasks(s: State, step: Step)
    requires TasksMinted(s)
    ensures Next(s, step).task < s.tasks <= Next(s, step).tasks
    ensures forall t :: t in Next(s, step).drivers ==> t < Next(s, step).tasks
  {
    var next := Next(s, step);
    match step {
      case Suspend(d) => assert d < |s.drivers| ==> s.drivers[d] in s.drivers;
      case Resume(k) =>
        assert k < |s.attempts| ==> s.attempts[k] in s.attempts;
      case NextTask(d) =>
        assert forall t :: t in next.drivers ==> t in s.drivers || t == s.tasks;
      case HumanResume =>
        assert forall t :: t in next.drivers ==> t in s.drivers || t == s.tasks;
      case Restart =>
        assert forall t :: t in next.drivers ==> t in s.drivers || t == s.tasks;
      case _ =>
    }
  }

  lemma {:induction false} StepMintsWatches(s: State, step: Step)
    requires TasksMinted(s)
    ensures forall t :: t in Next(s, step).counting || t in Next(s, step).rechecks ==> t < s.tasks
    ensures forall a :: a in Next(s, step).attempts ==> a.task < s.tasks
  {
    match step {
      case Suspend(d) => assert d < |s.drivers| ==> s.drivers[d] in s.drivers;
      case Count(k) => assert k < |s.counting| ==> s.counting[k] in s.counting;
      case Recheck(k) => assert k < |s.rechecks| ==> s.rechecks[k] in s.rechecks;
      case _ =>
    }
  }

  lemma {:induction false} StepMintsRows(s: State, step: Step)
    requires TasksMinted(s)
    ensures forall i :: 0 <= i < |Next(s, step).rows| ==> Next(s, step).rows[i].task < s.tasks
  {
    if step.Dispatch? && step.d < |s.drivers| {
      assert s.drivers[step.d] in s.drivers;
    }
  }

  lemma {:induction false} StepKeepsMinted(s: State, step: Step)
    requires TasksMinted(s)
    ensures TasksMinted(Next(s, step))
  {
    StepMintsTasks(s, step);
    StepMintsWatches(s, step);
    StepMintsRows(s, step);
  }

  /** No step drops a row or unsettles one. */
  ghost predicate RowsKept(rows: seq<Row>, next: seq<Row>) {
    |rows| <= |next| &&
    forall i :: 0 <= i < |rows| ==> next[i].task == rows[i].task && (rows[i].settler.Some? ==> next[i] == rows[i])
  }

  lemma {:induction false} StepKeepsRows(s: State, step: Step)
    ensures RowsKept(s.rows, Next(s, step).rows)
  {
  }

  /** A new attempt comes from a count that found its task free. */
  lemma {:induction false} NewAttempt(s: State, step: Step, a: Attempt)
    requires a in Next(s, step).attempts && a !in s.attempts
    ensures !s.HasPending(a.task) && a.born == |s.rows|
    ensures (step.Count? && step.k < |s.counting| && s.counting[step.k] == a.task) ||
            (step.Recheck? && step.k < |s.rechecks| && s.rechecks[step.k] == a.task)
  {
  }

  lemma {:induction false} StepKeepsAttempts(s: State, step: Step)
    requires AttemptsSound(s)
    ensures AttemptsSound(Next(s, step))
  {
    var next := Next(s, step);
    StepKeepsRows(s, step);
    forall a | a in next.attempts ensures AttemptSound(next, a) {
      if a !in s.attempts {
        NewAttempt(s, step, a);
      }
      assert AttemptSound(s, a);
    }
  }

  lemma {:induction false} StepKeepsLog(s: State, step: Step)
    requires LogAlternates(s)
    ensures LogAlternates(Next(s, step))
  {
  }

  /** A driver leaves the suspended task, which another driver suspended in, without suspending itself. */
  predicate Leaves(s: State, step: Step) {
    (step.DriverEnds? || step.NextTask?) && s.Suspended() && step.d < |s.drivers| && s.drivers[step.d] == s.task
  }

  lemma {:induction false} StepKeepsAwake(s: State, step: Step)
    requires NoLostWakeUp(s) && !Loses(step) && !Leaves(s, step)
    ensures NoLostWakeUp(Next(s, step))
  {
    var next := Next(s, step);
    if next.Suspended() && s.Suspended() {
      match step {
        case Settle(call, settler) =>
          if next != s {
            SettleWatches(s, call, settler);
          }
        case Count(k) =>
          if k < |s.counting| {
            CountWatches(s, s.counting[k], s.(counting := Without(s.counting, k)));
          }
        case Recheck(k) =>
          if k < |s.rechecks| {
            CountWatches(s, s.rechecks[k], s.(rechecks := Without(s.rechecks, k)));
          }
        case _ => OtherStepKeepsAwake(s, step);
      }
    }
  }

  lemma {:induction false} OtherStepKeepsAwake(s: State, step: Step)
    requires s.Suspended() && Woken(s) && Next(s, step).Suspended() && !Loses(step) && !Leaves(s, step)
    requires !step.Settle? && !step.Count? && !step.Recheck?
    ensures Woken(Next(s, step))
  {
    var next := Next(s, step);
    StepKeepsRows(s, step);
    if s.HasPending(s.task) {
      var i :| 0 <= i < |s.rows| && s.rows[i].task == s.task && s.rows[i].settler.None?;
      assert step.DispatchFails? || next.rows[i] == s.rows[i];
      assert s.task !in s.drivers && next != s ==> !step.DispatchFails? || step.call != i;
    }
    DriversStay(s, step);
  }

  /** Whatever a driver does but leave its task, it is still in it or has left a re-check behind. */
  lemma {:induction false} DriversStay(s: State, step: Step)
    requires s.Suspended() && Next(s, step).Suspended() && !Loses(step) && !Leaves(s, step)
    ensures s.task in s.drivers ==> s.task in Next(s, step).drivers || s.task in Next(s, step).rechecks
    ensures Next(s, step).task == s.task
  {
    if step.NextTask? && s.task in s.drivers && step.d < |s.drivers| {
      var i :| 0 <= i < |s.drivers| && s.drivers[i] == s.task;
      assert Next(s, step).drivers[i] == s.task;
    }
  }

  lemma {:induction false} SettleWatches(s: State, call: nat, settler: Finisher)
    requires Next(s, Settle(call, settler)) != s && Woken(s)
    ensures Woken(Next(s, Settle(call, settler)))
  {
    var next := Next(s, Settle(call, settler));
    if s.rows[call].task != s.task && s.HasPending(s.task) {
      var i :| 0 <= i < |s.rows| && s.rows[i].task == s.task && s.rows[i].settler.None?;
      assert next.rows[i] == s.rows[i];
    } else if Watched(s, s.task) && exists a :: a in s.attempts && a.task == s.task {
      var a :| a in s.attempts && a.task == s.task;
      assert a in next.attempts;
    }
  }

  lemma {:induction false} CountWatches(s: State, task: nat, before: State)
    requires Woken(s) && before.rows == s.rows && before.attempts == s.attempts
    requires before.task == s.task && before.drivers == s.drivers
    requires forall t: nat :: t != task ==>
               (t in s.counting ==> t in before.counting) && (t in s.rechecks ==> t in before.rechecks)
    ensures Woken(Counted(before, task))
  {
    var next := Counted(before, task);
    if s.HasPending(s.task) {
      assert next.HasPending(s.task);
    } else if task == s.task {
      assert Attempt(task, |s.rows|) in next.attempts;
    } else if exists a :: a in s.attempts && a.task == s.task {
      var a :| a in s.attempts && a.task == s.task;
      assert a in next.attempts;
    }
  }

  lemma {:induction false} StepKeepsInv(s: State, step: Step)
    requires Inv(s)
    ensures Inv(Next(s, step))
  {
    StepKeepsMinted(s, step);
    StepKeepsAttempts(s, step);
    StepKeepsLog(s, step);
  }

  lemma {:induction false} RunKeepsInv(s: State, steps: seq<Step>)
    requires Inv(s)
    ensures Inv(Run(Next, s, steps))
  {
    if steps == [] {
    } else {
      RunKeepsInv(s, steps[..|steps| - 1]);
      StepKeepsInv(Run(Next, s, steps[..|steps| - 1]), steps[|steps| - 1]);
    }
  }

  /** Nothing under way is lost, and no driver leaves a task that the run is suspended in. */
  ghost predicate Orderly(steps: seq<Step>) {
    Reliable(steps) && forall i :: 0 <= i < |steps| ==> !Leaves(Run(Next, INIT, steps[..i]), steps[i])
  }

  lemma {:induction false} OrderlyBefore(steps: seq<Step>)
    requires steps != [] && Orderly(steps)
    ensures Orderly(steps[..|steps| - 1])
  {
    var n := |steps| - 1;
    forall i | 0 <= i < n ensures !Leaves(Run(Next, INIT, steps[..n][..i]), steps[..n][i]) {
      assert steps[..n][..i] == steps[..i];
    }
  }

  /**
    No lost wake-up: in every run in which nothing under way is lost and no driver leaves a suspended task,
    whatever the order of callbacks, watchdogs, re-checks, suspensions and restarts.
    */
  lemma {:induction false} NoRunLosesAWakeUp(steps: seq<Step>)
    requires Orderly(steps)
    ensures NoLostWakeUp(Run(Next, INIT, steps)) && Inv(Run(Next, INIT, steps))
  {
    RunKeepsInv(INIT, steps);
    if steps == [] {
    } else {
      OrderlyBefore(steps);
      NoRunLosesAWakeUp(steps[..|steps| - 1]);
      StepKeepsAwake(Run(Next, INIT, steps[..|steps| - 1]), steps[|steps| - 1]);
    }
  }

  /** At most one driver, and none while suspended. */
  ghost predicate OneDriver(s: State) {
    && s.recoveries == 0 && |s.drivers| <= 1
    && (s.status in {PausedForTool, PausedForHuman} ==> s.drivers == [])
  }

  lemma {:induction false} StepKeepsOneDriver(s: State, step: Step)
    requires OneDriver(s) && step != FindsStale
    ensures OneDriver(Next(s, step))
  {
  }

  lemma {:induction false} RunKeepsOneDriver(steps: seq<Step>)
    requires FindsStale !in steps
    ensures OneDriver(Run(Next, INIT, steps))
  {
    if steps == [] {
    } else {
      RunKeepsOneDriver(steps[..|steps| - 1]);
      StepKeepsOneDriver(Run(Next, INIT, steps[..|steps| - 1]), steps[|steps| - 1]);
    }
  }

  /** Without cold recovery a suspended task has no driver: it has a pending call or somebody watches it. */
  lemma {:induction false} NoRestartNoLostWakeUp(steps: seq<Step>)
    requires Reliable(steps) && FindsStale !in steps
    ensures Orderly(steps)
    ensures var s := Run(Next, INIT, steps);
            s.Suspended() ==> s.drivers == [] && (s.HasPending(s.task) || Watched(s, s.task))
  {
    forall i | 0 <= i < |steps| ensures !Leaves(Run(Next, INIT, steps[..i]), steps[i]) {
      RunKeepsOneDriver(steps[..i]);
    }
    RunKeepsOneDriver(steps);
    NoRunLosesAWakeUp(steps);
  }

  /** Each suspension is resumed at most once, in every run. */
  lemma {:induction false} ResumedAtMostOnce(steps: seq<Step>)
    ensures LogAlternates(Run(Next, INIT, steps))
  {
    RunKeepsInv(INIT, steps);
  }

  /** A resume finds every call of its task settled that was dispatched before its count, in every run. */
  lemma {:induction false} ResumeFindsSettled(steps: seq<Step>, k: nat, call: nat)
    requires k < |Run(Next, INIT, steps).attempts| && call < |Run(Next, INIT, steps).rows|
    ensures var s := Run(Next, INIT, steps);
            s.rows[call].task == s.attempts[k].task && s.rows[call].settler.None? ==> s.attempts[k].born <= call
  {
    RunKeepsInv(INIT, steps);
    assert AttemptSound(Run(Next, INIT, steps), Run(Next, INIT, steps).attempts[k]);
  }

  /** A settled call keeps its settler for good, and no row is ever dropped. */
  lemma {:induction false} SettledOnce(s: State, steps: seq<Step>, call: nat)
    requires call < |s.rows|
    ensures call < |Run(Next, s, steps).rows| && Run(Next, s, steps).rows[call].task == s.rows[call].task
    ensures s.rows[call].settler.Some? ==> Run(Next, s, steps).rows[call] == s.rows[call]
  {
    if steps == [] {
    } else {
      SettledOnce(s, steps[..|steps| - 1], call);
      StepKeepsRows(Run(Next, s, steps[..|steps| - 1]), steps[|steps| - 1]);
    }
  }

  // ---------- From every suspension there is a way back ----------

  /** Every state on the way, the first included, is suspended. */
  ghost predicate StaysSuspended(s: State, steps: seq<Step>) {
    forall k :: 0 <= k <= |steps| ==> Run(Next, s, steps[..k]).Suspended()
  }

  /** Another task's rows are untouched and nobody but the given task is counted. */
  ghost predicate OthersUntouched(s: State, next: State, task: nat) {
    |next.rows| == |s.rows| && next.task == s.task &&
    forall i :: 0 <= i < |s.rows| && s.rows[i].task != task ==> next.rows[i] == s.rows[i]
  }

  /** Nothing is lost, and callbacks settle only what no watchdog guards. */
  ghost predicate WithoutHelp(s: State, steps: seq<Step>) {
    forall i :: 0 <= i < |steps| ==>
      !Loses(steps[i]) &&
      (steps[i].Settle? && steps[i].settler == Callback ==> steps[i].call < |s.rows| && !s.rows[steps[i].call].guarded)
  }

  lemma {:induction false} Prepend(s: State, step: Step, steps: seq<Step>)
    requires s.Suspended() && StaysSuspended(Next(s, step), steps)
    ensures StaysSuspended(s, [step] + steps) && Run(Next, s, [step] + steps) == Run(Next, Next(s, step), steps)
  {
    RunOne(Next, s, step);
    RunConcat(Next, s, [step], steps);
    forall k | 0 <= k <= |[step] + steps| ensures Run(Next, s, ([step] + steps)[..k]).Suspended() {
      if k > 0 {
        assert ([step] + steps)[..k] == [step] + steps[..k - 1];
        RunConcat(Next, s, [step], steps[..k - 1]);
      }
    }
  }

  lemma {:induction false} StayingPut(s: State)
    requires s.Suspended()
    ensures StaysSuspended(s, []) && Run(Next, s, []) == s
  {
  }

  /**
    The calls of a task that is pending or watched can be settled and counted, one step each, until a
    resume of that task is on its way: at most one step for each row from k on and one count.
    */
  lemma {:induction false} Drain(s: State, task: nat, k: nat) returns (steps: seq<Step>)
    requires s.Suspended() && k <= |s.rows|
    requires s.HasPending(task) || Watched(s, task)
    requires forall i :: 0 <= i < k && s.rows[i].task == task ==> s.rows[i].settler.Some?
    ensures StaysSuspended(s, steps) && OthersUntouched(s, Run(Next, s, steps), task)
    ensures exists a :: a in Run(Next, s, steps).attempts && a.task == task
    ensures |steps| <= |s.rows| - k + 1 && WithoutHelp(s, steps)
    decreases |s.rows| - k
  {
    if k < |s.rows| {
      if s.rows[k].task == task && s.rows[k].settler.None? {
        var settle := Settle(k, if s.rows[k].guarded then Watchdog else Callback);
        assert task in Next(s, settle).counting;
        var rest := Drain(Next(s, settle), task, k + 1);
        Prepend(s, settle, rest);
        steps := [settle] + rest;
      } else {
        steps := Drain(s, task, k + 1);
      }
    } else {
      assert !s.HasPending(task);
      steps := WakeIdle(s, task);
    }
  }

  lemma {:induction false} WakeIdle(s: State, task: nat) returns (steps: seq<Step>)
    requires s.Suspended() && !s.HasPending(task) && Watched(s, task)
    ensures StaysSuspended(s, steps) && OthersUntouched(s, Run(Next, s, steps), task)
    ensures exists a :: a in Run(Next, s, steps).attempts && a.task == task
    ensures |steps| <= 1 && WithoutHelp(s, steps)
  {
    if exists a :: a in s.attempts && a.task == task {
      StayingPut(s);
      steps := [];
    } else {
      var list := if task in s.counting then s.counting else s.rechecks;
      var k :| 0 <= k < |list| && list[k] == task;
      steps := WakeByCount(s, task, if task in s.counting then Count(k) else Recheck(k));
    }
  }

  lemma {:induction false} WakeByCount(s: State, task: nat, step: Step) returns (steps: seq<Step>)
    requires s.Suspended() && !s.HasPending(task)
    requires (step.Count? && step.k < |s.counting| && s.counting[step.k] == task) ||
             (step.Recheck? && step.k < |s.rechecks| && s.rechecks[step.k] == task)
    ensures steps == [step] && StaysSuspended(s, steps)
    ensures Run(Next, s, steps).rows == s.rows && Run(Next, s, steps).task == s.task
    ensures Attempt(task, |s.rows|) in Run(Next, s, steps).attempts
  {
    StayingPut(Next(s, step));
    Prepend(s, step, []);
    steps := [step];
    assert [step] + [] == steps;
  }

  /** A driver in the suspended task suspends in vain, but re-checks. */
  lemma {:induction false} DriverRechecks(s: State, d: nat)
    requires s.Suspended() && d < |s.drivers|
    ensures var next := Next(s, Suspend(d));
            next.Suspended() && next.rows == s.rows && next.task == s.task && Watched(next, s.drivers[d])
  {
  }

  lemma {:induction false} WakeSteps(s: State) returns (steps: seq<Step>)
    requires s.Suspended() && Woken(s)
    ensures StaysSuspended(s, steps) && WithoutHelp(s, steps) && |steps| <= |s.rows| + 2
    ensures Run(Next, s, steps).attempts != []
  {
    if s.HasPending(s.task) || Watched(s, s.task) {
      steps := Drain(s, s.task, 0);
    } else {
      var d :| 0 <= d < |s.drivers| && s.drivers[d] == s.task;
      DriverRechecks(s, d);
      var rest := Drain(Next(s, Suspend(d)), s.task, 0);
      Prepend(s, Suspend(d), rest);
      steps := [Suspend(d)] + rest;
    }
  }

  /** Still suspended after these steps, any attempt resumes. */
  lemma {:induction false} ResumeAfter(s: State, before: seq<Step>) returns (steps: seq<Step>)
    requires StaysSuspended(s, before) && WithoutHelp(s, before) && Run(Next, s, before).attempts != []
    ensures Run(Next, s, steps).status == Running && WithoutHelp(s, steps) && |steps| == |before| + 1
  {
    assert before[..|before|] == before;
    steps := before + [Resume(0)];
    RunThen(Next, s, before, Resume(0));
  }

  /**
    Every suspended state of such a run can be resumed by watchdogs, counts and one attempt, one step for
    each pending call and three more. Only a call that no watchdog guards needs its callback.
    */
  lemma {:induction false} EverySuspensionCanWake(steps: seq<Step>) returns (wake: seq<Step>)
    requires Orderly(steps) && Run(Next, INIT, steps).Suspended()
    ensures Run(Next, INIT, steps + wake).status == Running && WithoutHelp(Run(Next, INIT, steps), wake)
    ensures |wake| <= |Run(Next, INIT, steps).rows| + 3
  {
    NoRunLosesAWakeUp(steps);
    var drain := WakeSteps(Run(Next, INIT, steps));
    wake := ResumeAfter(Run(Next, INIT, steps), drain);
    RunConcat(Next, INIT, steps, wake);
  }

  // ---------- When a resume finds calls pending ----------

  /** Continuing from s, a resume finds calls of the suspended task still pending. */
  ghost predicate ResumesEarly(s: State, steps: seq<Step>, a: Attempt) {
    var last := Run(Next, s, steps);
    StaysSuspended(s, steps) && a in last.attempts && last.HasPending(last.task)
  }

  /** Nothing that was under way before the suspension, no driver and nothing of another task can still resume. */
  ghost predicate OnlyItsOwn(s: State) {
    && s.attempts == [] && s.drivers == [] && s.recoveries == 0
    && forall t: nat :: t != s.task ==> t !in s.counting && t !in s.rechecks && !s.HasPending(t)
  }

  /**
    A suspension with pending calls waits for all of them, however its run goes on, if and only if at
    that moment no attempt, no driver and no restart is under way and no call, count or re-check of another
    task is.
    */
  lemma {:induction false} WaitsForAllIff(s: State)
    requires Inv(s) && s.Suspended() && s.HasPending(s.task)
    ensures (forall steps, a :: !ResumesEarly(s, steps, a)) <==> OnlyItsOwn(s)
  {
    if OnlyItsOwn(s) {
      forall steps, a ensures !ResumesEarly(s, steps, a) {
        if StaysSuspended(s, steps) {
          StaysItsOwn(s, steps);
        }
      }
    } else {
      var steps, a := EarlyResume(s);
    }
  }

  lemma {:induction false} EarlyResume(s: State) returns (steps: seq<Step>, a: Attempt)
    requires Inv(s) && s.Suspended() && s.HasPending(s.task) && !OnlyItsOwn(s)
    ensures ResumesEarly(s, steps, a)
  {
    if s.attempts != [] {
      a := s.attempts[0];
      StayingPut(s);
      steps := [];
    } else if s.drivers != [] {
      steps, a := DriverResumesEarly(s);
    } else if s.recoveries > 0 {
      StepKeepsInv(s, Restart);
      assert Next(s, Restart).HasPending(s.task);
      var rest;
      rest, a := DriverResumesEarly(Next(s, Restart));
      Prepend(s, Restart, rest);
      steps := [Restart] + rest;
    } else {
      var t :| t != s.task && (t in s.counting || t in s.rechecks || s.HasPending(t));
      steps, a := OtherResumesEarly(s, t);
    }
  }

  lemma {:induction false} OtherResumesEarly(s: State, t: nat) returns (steps: seq<Step>, a: Attempt)
    requires s.Suspended() && s.HasPending(s.task) && t != s.task && (s.HasPending(t) || Watched(s, t))
    ensures ResumesEarly(s, steps, a)
  {
    steps := Drain(s, t, 0);
    var last := Run(Next, s, steps);
    a :| a in last.attempts && a.task == t;
    var i :| 0 <= i < |s.rows| && s.rows[i].task == s.task && s.rows[i].settler.None?;
    assert last.rows[i] == s.rows[i];
  }

  /** A driver that comes to a fresh task and suspends there re-checks it, finds it free and resumes. */
  lemma {:induction false} DriverResumesEarly(s: State) returns (steps: seq<Step>, a: Attempt)
    requires Inv(s) && s.Suspended() && s.HasPending(s.task) && s.drivers != []
    ensures ResumesEarly(s, steps, a)
  {
    var moved := Next(s, NextTask(0));
    DriverRechecks(moved, 0);
    var suspended := Next(moved, Suspend(0));
    assert suspended.HasPending(s.task);
    steps, a := OtherResumesEarly(suspended, s.tasks);
    Prepend(moved, Suspend(0), steps);
    Prepend(s, NextTask(0), [Suspend(0)] + steps);
    steps := [NextTask(0)] + ([Suspend(0)] + steps);
  }

  /** While suspended after a clean suspension, attempts appear only once the task has nothing pending. */
  ghost predicate StillItsOwn(s: State, task: nat) {
    && s.task == task && s.drivers == [] && s.recoveries == 0
    && (s.HasPending(task) ==> s.attempts == [])
    && forall t: nat :: t != task ==> t !in s.counting && t !in s.rechecks && !s.HasPending(t)
  }

  /** What a step changes that starts and ends suspended. */
  lemma {:induction false} SuspendedStep(s: State, step: Step)
    requires s.Suspended() && s.drivers == [] && s.recoveries == 0 && Next(s, step).Suspended()
    ensures var next := Next(s, step);
            next.drivers == [] && next.recoveries == 0 && next.task == s.task && |next.rows| == |s.rows| &&
            forall t :: t in next.rechecks ==> t in s.rechecks
  {
  }

  lemma {:induction false} SuspendedStepCounts(s: State, step: Step, t: nat)
    requires s.Suspended() && s.drivers == [] && s.recoveries == 0 && Next(s, step).Suspended()
    requires t in Next(s, step).counting && t !in s.counting
    ensures s.HasPending(t)
  {
    assert step.Settle? && CanSettle(s, step.call) && s.rows[step.call].task == t;
  }

  lemma {:induction false} StepStaysItsOwn(s: State, step: Step, task: nat)
    requires StillItsOwn(s, task) && s.Suspended() && Next(s, step).Suspended()
    ensures StillItsOwn(Next(s, step), task)
  {
    var next := Next(s, step);
    SuspendedStep(s, step);
    StepKeepsRows(s, step);
    if next.HasPending(task) && next.attempts != [] {
      assert s.HasPending(task);
      NewAttempt(s, step, next.attempts[0]);
    }
    forall t: nat | t != task ensures t !in next.counting && t !in next.rechecks && !next.HasPending(t) {
      assert !s.HasPending(t);
      if t in next.counting {
        SuspendedStepCounts(s, step, t);
      }
    }
  }

  lemma {:induction false} StaysItsOwn(s: State, steps: seq<Step>)
    requires Inv(s) && OnlyItsOwn(s) && StaysSuspended(s, steps)
    ensures StillItsOwn(Run(Next, s, steps), s.task)
  {
    assert steps[..0] == [] && Run(Next, s, steps[..0]) == s;
    if steps == [] {
    } else {
      var n := |steps| - 1;
      assert StaysSuspended(s, steps[..n]) by {
        forall k | 0 <= k <= n ensures Run(Next, s, steps[..n][..k]).Suspended() {
          assert steps[..n][..k] == steps[..k];
        }
      }
      assert steps[..n + 1] == steps;
      StaysItsOwn(s, steps[..n]);
      assert Run(Next, s, steps[..n]).Suspended();
      StepStaysItsOwn(Run(Next, s, steps[..n]), steps[n], s.task);
    }
  }

  /**
    It does happen: the first of two calls settles before the second is dispatched, and its resume
    arrives after the suspension.
    */
  lemma {:induction false} EarlyResumeExample()
    ensures var steps := [Dispatch(0, true), Settle(0, Callback), Count(0), Dispatch(0, true)] + [Suspend(0)];
            && Run(Next, INIT, steps).Suspended()
            && var resumed := Next(Run(Next, INIT, steps), Resume(0));
               resumed.status == Running && resumed.HasPending(0)
  {
    var first, second := Row(0, Some(Callback), true), Row(0, None, true);
    var five := State(PausedForTool, [], 0, 0, 1, [first, second], [], [0], [Attempt(0, 1)], [Mark.Suspended]);
    RunFour(Next, INIT, Dispatch(0, true), Settle(0, Callback), Count(0), Dispatch(0, true));
    RunThen(Next, INIT, [Dispatch(0, true), Settle(0, Callback), Count(0), Dispatch(0, true)], Suspend(0));
    FirstCallSettled(first, second);
    SecondCallDispatched(first, second);
    assert Next(five, Resume(0)).rows[1] == second;
  }

  lemma {:induction false} FirstCallSettled(first: Row, second: Row)
    requires first == Row(0, Some(Callback), true) && second == Row(0, None, true)
    ensures Next(Next(Next(INIT, Dispatch(0, true)), Settle(0, Callback)), Count(0)) ==
            State(Running, [0], 0, 0, 1, [first], [], [], [Attempt(0, 1)], [])
  {
    assert Next(INIT, Dispatch(0, true)).rows == [second];
    assert Next(Next(INIT, Dispatch(0, true)), Settle(0, Callback)) ==
           State(Running, [0], 0, 0, 1, [first], [0], [], [], []);
  }

  lemma {:induction false} SecondCallDispatched(first: Row, second: Row)
    requires first == Row(0, Some(Callback), true) && second == Row(0, None, true)
    ensures var before := State(Running, [0], 0, 0, 1, [first], [], [], [Attempt(0, 1)], []);
            Next(Next(before, Dispatch(0, true)), Suspend(0)) ==
            State(PausedForTool, [], 0, 0, 1, [first, second], [], [0], [Attempt(0, 1)], [Mark.Suspended])
  {
  }
}
