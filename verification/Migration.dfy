/**
  The batched migration that gives every workflow with a state a first deployment version: the nested
  loops over the tables, and what they amount to workflow by workflow.
  */
module Migration {
  import opened Prelude

  type State = string

  datatype Workflow = Workflow(id: string, isDeployed: bool, deployedState: Option<State>, normalized: Option<State>)

  datatype Version = Version(workflowId: string, version: int, state: State, isActive: bool)

  datatype Tables = Tables(workflows: seq<Workflow>, versions: seq<Version>)

  /** What goes wrong in a batch: nothing, the insert, or the update after the insert went through. */
  datatype Fault = NoFault | InsertFails | UpdateFails

  /**
    One run of the script: faults is indexed by batch, loadFails by workflow. Nothing catches an
    exception of the state loader, so it ends the run.
    */
  datatype Run = Run(dryRun: bool, faults: nat -> Fault, loadFails: nat -> bool)

  datatype Counts = Counts(success: int, skipped: int, errors: int)

  const BATCH_SIZE: nat := 50

  /** The primary key. */
  ghost predicate Keyed(ws: seq<Workflow>) {
    forall i, j :: 0 <= i < j < |ws| ==> ws[i].id != ws[j].id
  }

  // ---------- Workflow by workflow ----------

  /** The version row a run plans for a workflow, given the workflows that have one. */
  function Plan(w: Workflow, existing: set<string>): Option<Version> {
    if w.id in existing then None
    else match w.deployedState
      case Some(state) => Some(Version(w.id, 1, state, true))
      case None => match w.normalized
        case Some(state) => Some(Version(w.id, 1, state, true))
        case None => None
  }

  /** The number of the batch, of BATCH_SIZE workflows, that position p falls into. */
  function BatchOf(p: nat): nat {
    p / 50
  }

  predicate StartsBatch(i: nat) {
    i % 50 == 0
  }

  function FaultAt(run: Run, p: nat): Fault {
    run.faults(BatchOf(p))
  }

  /** The state of w is loaded, and the loader throws. */
  predicate LoadThrows(w: Workflow, p: nat, existing: set<string>, run: Run) {
    w.id !in existing && w.deployedState.None? && run.loadFails(p)
  }

  /** The first position from p on at which the loader throws, or |ws|. */
  function FirstThrow(ws: seq<Workflow>, existing: set<string>, run: Run, p: nat): (q: nat)
    requires p <= |ws|
    ensures p <= q <= |ws|
    decreases |ws| - p
  {
    if p == |ws| || LoadThrows(ws[p], p, existing, run) then p else FirstThrow(ws, existing, run, p + 1)
  }

  /** How many workflows get through: all, or those of the batches before the one that throws. */
  function Done(ws: seq<Workflow>, existing: set<string>, run: Run): (n: nat)
    ensures n <= |ws|
  {
    var q := FirstThrow(ws, existing, run, 0);
    if q == |ws| then q else 50 * BatchOf(q)
  }

  /** The rows inserted for the workflow at position p. */
  function Gain(w: Workflow, p: nat, existing: set<string>, run: Run): seq<Version> {
    var plan := Plan(w, existing);
    if plan.Some? && !run.dryRun && FaultAt(run, p) != InsertFails then [plan.value] else []
  }

  function Gains(ws: seq<Workflow>, existing: set<string>, run: Run): nat -> seq<Version> {
    (p: nat) => if p < |ws| then Gain(ws[p], p, existing, run) else []
  }

  /** The rows inserted for the first n workflows. */
  function Inserted(ws: seq<Workflow>, existing: set<string>, run: Run, n: nat): seq<Version> {
    Glue([], Gains(ws, existing, run), n)
  }

  function Row(w: Workflow, p: nat, existing: set<string>, run: Run): Workflow {
    if Plan(w, existing).Some? && !run.dryRun && FaultAt(run, p) == NoFault then w.(isDeployed := true) else w
  }

  /** The workflow table once the first n workflows are through. */
  function Rows(ws: seq<Workflow>, existing: set<string>, run: Run, n: nat): (rows: seq<Workflow>)
    ensures |rows| == |ws|
  {
    seq(|ws|, p requires 0 <= p < |ws| => if p < n then Row(ws[p], p, existing, run) else ws[p])
  }

  datatype Verdict = Skipped | Erred | Succeeded

  function Judged(w: Workflow, p: nat, existing: set<string>, run: Run): Verdict {
    if Plan(w, existing).None? then Skipped
    else if !run.dryRun && FaultAt(run, p) != NoFault then Erred
    else Succeeded
  }

  function Tally(ws: seq<Workflow>, existing: set<string>, run: Run, n: nat): Counts
    requires n <= |ws|
  {
    if n == 0 then Counts(0, 0, 0)
    else
      var c := Tally(ws, existing, run, n - 1);
      match Judged(ws[n - 1], n - 1, existing, run)
      case Skipped => c.(skipped := c.skipped + 1)
      case Erred => c.(errors := c.errors + 1)
      case Succeeded => c.(success := c.success + 1)
  }

  function Ids(versions: seq<Version>): set<string> {
    set i | 0 <= i < |versions| :: versions[i].workflowId
  }

  function Migrated(t: Tables, run: Run): Tables {
    var existing := Ids(t.versions);
    var n := Done(t.workflows, existing, run);
    Tables(Rows(t.workflows, existing, run, n), t.versions + Inserted(t.workflows, existing, run, n))
  }

  // ---------- The script ----------

  class Database {
    var workflows: seq<Workflow>
    var versions: seq<Version>

    constructor (tables: Tables)
      ensures workflows == tables.workflows && versions == tables.versions
    {
      workflows, versions := tables.workflows, tables.versions;
    }

    method InsertVersions(rows: seq<Version>)
      modifies this`versions
      ensures versions == old(versions) + rows
    {
      versions := versions + rows;
    }

    method MarkDeployed(ids: set<string>)
      modifies this`workflows
      ensures workflows == Marked(old(workflows), ids)
    {
      workflows := Marked(workflows, ids);
    }
  }

  function Marked(ws: seq<Workflow>, ids: set<string>): (rows: seq<Workflow>)
    ensures |rows| == |ws|
  {
    seq(|ws|, i requires 0 <= i < |ws| => if ws[i].id in ids then ws[i].(isDeployed := true) else ws[i])
  }

  /** The rows planned for the workflows from i up to j. */
  function Plans(ws: seq<Workflow>, existing: set<string>, i: nat, j: nat): (plans: seq<Version>)
    requires i <= j <= |ws|
    ensures |plans| <= j - i
  {
    if i == j then []
    else
      var plan := Plan(ws[j - 1], existing);
      Plans(ws, existing, i, j - 1) + (if plan.Some? then [plan.value] else [])
  }

  /** counts == None is a run that the loader has ended. */
  method MigrateWorkflows(db: Database, run: Run) returns (counts: Option<Counts>)
    requires Keyed(db.workflows)
    modifies db
    ensures Tables(db.workflows, db.versions) == Migrated(old(Tables(db.workflows, db.versions)), run)
    ensures counts == if Done(old(db.workflows), Ids(old(db.versions)), run) < |old(db.workflows)| then None
                      else Some(Tally(old(db.workflows), Ids(old(db.versions)), run, |old(db.workflows)|))
  {
    var existing := Ids(db.versions);
    ghost var before := Tables(db.workflows, db.versions);
    var tally, ended := MigrateBatches(db, existing, run);
    EndsHere(db, before, run, Done(before.workflows, existing, run), tally);
    counts := if ended then None else Some(tally);
  }

  /** The outer loop; ended == true is a run that the loader has ended. */
  method MigrateBatches(db: Database, existing: set<string>, run: Run) returns (tally: Counts, ended: bool)
    requires Keyed(db.workflows)
    modifies db
    ensures ended <==> Done(old(db.workflows), existing, run) < |old(db.workflows)|
    ensures Through(db, old(db.versions), old(db.workflows), existing, run, Done(old(db.workflows), existing, run), tally)
  {
    var ws := db.workflows;
    ghost var before := db.versions;
    tally := Counts(0, 0, 0);
    var i := 0;
    NothingYet(db, existing, run);
    while i < |ws|
      invariant i <= |ws| && (i < |ws| ==> StartsBatch(i))
      invariant NoneThrows(ws, existing, run, i)
      invariant Through(db, before, ws, existing, run, i, tally)
    {
      var end := Min(i + BATCH_SIZE, |ws|);
      var stored;
      tally, stored := MigrateBatch(db, before, ws, existing, run, i, end, tally);
      if !stored {
        return tally, true;
      }
      if end < |ws| {
        NextBatch(i, end);
      }
      i := end;
    }
    AllThrough(ws, existing, run);
    ended := false;
  }

  lemma {:induction false} NextBatch(i: nat, end: nat)
    requires StartsBatch(i) && end == i + BATCH_SIZE
    ensures StartsBatch(end)
  {
  }

  lemma {:induction false} NothingYet(db: Database, existing: set<string>, run: Run)
    ensures Through(db, db.versions, db.workflows, existing, run, 0, Counts(0, 0, 0))
  {
    assert Rows(db.workflows, existing, run, 0) == db.workflows;
    assert db.versions + [] == db.versions;
  }

  /** The loader gets through the first n workflows. */
  predicate NoneThrows(ws: seq<Workflow>, existing: set<string>, run: Run, n: nat)
    requires n <= |ws|
  {
    FirstThrow(ws, existing, run, 0) == FirstThrow(ws, existing, run, n)
  }

  lemma {:induction false} StopsAt(ws: seq<Workflow>, existing: set<string>, run: Run, i: nat, end: nat)
    requires i < end <= |ws| && StartsBatch(i) && end <= i + BATCH_SIZE
    requires NoneThrows(ws, existing, run, i) && FirstThrow(ws, existing, run, i) < end
    ensures Done(ws, existing, run) == i
  {
  }

  lemma {:induction false} AllThrough(ws: seq<Workflow>, existing: set<string>, run: Run)
    requires NoneThrows(ws, existing, run, |ws|)
    ensures Done(ws, existing, run) == |ws|
  {
  }

  lemma {:induction false} EndsHere(db: Database, t: Tables, run: Run, n: nat, counts: Counts)
    requires n == Done(t.workflows, Ids(t.versions), run)
    requires Through(db, t.versions, t.workflows, Ids(t.versions), run, n, counts)
    ensures Tables(db.workflows, db.versions) == Migrated(t, run)
    ensures counts == Tally(t.workflows, Ids(t.versions), run, n)
  {
  }

  /** The first n workflows are through. */
  ghost predicate Through(db: Database, before: seq<Version>, ws: seq<Workflow>, existing: set<string>, run: Run, n: nat,
                          counts: Counts)
    requires n <= |ws|
    reads db
  {
    && db.workflows == Rows(ws, existing, run, n)
    && db.versions == before + Inserted(ws, existing, run, n)
    && counts == Tally(ws, existing, run, n)
  }

  /** One batch; stored == false is an exception of the loader, before anything of the batch is written. */
  method MigrateBatch(db: Database, ghost before: seq<Version>, ws: seq<Workflow>, existing: set<string>, run: Run, i: nat,
                      end: nat, counts: Counts)
    returns (next: Counts, stored: bool)
    requires Keyed(ws) && i < end <= |ws| && StartsBatch(i) && end <= i + BATCH_SIZE
    requires NoneThrows(ws, existing, run, i) && Through(db, before, ws, existing, run, i, counts)
    modifies db
    ensures if stored then NoneThrows(ws, existing, run, end) && Through(db, before, ws, existing, run, end, next)
            else Done(ws, existing, run) == i && Through(db, before, ws, existing, run, i, next)
  {
    var planned, skips, threw := PlanBatch(ws, existing, run, i, end);
    if threw {
      StopsAt(ws, existing, run, i, end);
      return counts, false;
    }
    var failed := StoreBatch(db, planned, run.dryRun, run.faults(BatchOf(i)));
    next, stored := Counts(if failed then counts.success else counts.success + |planned|, counts.skipped + skips,
                           if failed then counts.errors + |planned| else counts.errors), true;
    BatchTally(ws, existing, run, i, end);
    BatchInserts(ws, existing, run, i, end);
    BatchRows(ws, existing, run, i, end);
    AppendAfter(before, Inserted(ws, existing, run, i), db.versions[|before + Inserted(ws, existing, run, i)|..]);
  }

  lemma {:induction false} AppendAfter(a: seq<Version>, b: seq<Version>, c: seq<Version>)
    ensures a + (b + c) == a + b + c
  {
  }

  lemma {:induction false} NothingMarked(rows: seq<Workflow>)
    ensures Marked(rows, Ids([])) == rows
  {
  }

  /** The inner loop: the rows of one batch, and how many workflows it skips, unless the loader throws. */
  method PlanBatch(ws: seq<Workflow>, existing: set<string>, run: Run, i: nat, end: nat)
    returns (planned: seq<Version>, skips: nat, threw: bool)
    requires i <= end <= |ws|
    ensures threw <==> FirstThrow(ws, existing, run, i) < end
    ensures !threw ==> FirstThrow(ws, existing, run, i) == FirstThrow(ws, existing, run, end)
    ensures !threw ==> planned == Plans(ws, existing, i, end) && skips == end - i - |planned|
  {
    planned, skips, threw := [], 0, false;
    for j := i to end
      invariant FirstThrow(ws, existing, run, i) == FirstThrow(ws, existing, run, j)
      invariant planned == Plans(ws, existing, i, j) && skips == j - i - |planned|
    {
      var w := ws[j];
      if w.id in existing {
        skips := skips + 1;
        continue;
      }
      var state := w.deployedState;
      if state.None? {
        if run.loadFails(j) {
          return planned, skips, true;
        }
        state := w.normalized;
        if state.None? {
          skips := skips + 1;
          continue;
        }
      }
      planned := planned + [Version(w.id, 1, state.value, true)];
    }
  }

  /** Stores a batch that has rows; failed tells that one of its two statements threw. */
  method StoreBatch(db: Database, planned: seq<Version>, dryRun: bool, fault: Fault) returns (failed: bool)
    modifies db
    ensures db.versions == old(db.versions) + (if dryRun || fault == InsertFails then [] else planned)
    ensures db.workflows == if dryRun || fault != NoFault then old(db.workflows) else Marked(old(db.workflows), Ids(planned))
    ensures failed <==> planned != [] && !dryRun && fault != NoFault
  {
    failed := false;
    if |planned| > 0 {
      if !dryRun {
        failed := WriteBatch(db, planned, fault);
      }
    } else {
      NothingMarked(db.workflows);
    }
  }

  /** The two statements of a batch; an exception in the second leaves the first in place. */
  method WriteBatch(db: Database, planned: seq<Version>, fault: Fault) returns (failed: bool)
    modifies db
    ensures failed <==> fault != NoFault
    ensures db.versions == if fault == InsertFails then old(db.versions) else old(db.versions) + planned
    ensures db.workflows == if fault == NoFault then Marked(old(db.workflows), Ids(planned)) else old(db.workflows)
  {
    if fault == InsertFails {
      return true;
    }
    db.InsertVersions(planned);
    if fault == UpdateFails {
      return true;
    }
    db.MarkDeployed(Ids(planned));
    failed := false;
  }

  // ---------- A batch is its workflows ----------

  lemma {:induction false} SameBatch(i: nat, p: nat)
    requires StartsBatch(i) && i <= p < i + BATCH_SIZE
    ensures BatchOf(p) == BatchOf(i)
  {
  }

  lemma {:induction false} BatchInserts(ws: seq<Workflow>, existing: set<string>, run: Run, i: nat, j: nat)
    requires i <= j <= |ws| && StartsBatch(i) && j <= i + BATCH_SIZE
    ensures Inserted(ws, existing, run, j) == Inserted(ws, existing, run, i) +
            (if run.dryRun || run.faults(BatchOf(i)) == InsertFails then [] else Plans(ws, existing, i, j))
  {
    if i == j {
    } else {
      SameBatch(i, j - 1);
      BatchInserts(ws, existing, run, i, j - 1);
      NextInserts(ws, existing, run, i, j);
    }
  }

  lemma {:induction false} NextInserts(ws: seq<Workflow>, existing: set<string>, run: Run, i: nat, j: nat)
    requires i < j <= |ws| && BatchOf(j - 1) == BatchOf(i)
    ensures Inserted(ws, existing, run, j) == Inserted(ws, existing, run, j - 1) + Gain(ws[j - 1], j - 1, existing, run)
    ensures Plans(ws, existing, i, j) == Plans(ws, existing, i, j - 1) + Listed(Plan(ws[j - 1], existing))
    ensures Gain(ws[j - 1], j - 1, existing, run) ==
            if run.dryRun || run.faults(BatchOf(i)) == InsertFails then [] else Listed(Plan(ws[j - 1], existing))
  {
  }

  lemma {:induction false} BatchTally(ws: seq<Workflow>, existing: set<string>, run: Run, i: nat, j: nat)
    requires i <= j <= |ws| && StartsBatch(i) && j <= i + BATCH_SIZE
    ensures var c, n := Tally(ws, existing, run, i), |Plans(ws, existing, i, j)|;
            var failed := !run.dryRun && run.faults(BatchOf(i)) != NoFault;
            Tally(ws, existing, run, j) ==
            Counts(if failed then c.success else c.success + n, c.skipped + (j - i - n), if failed then c.errors + n else c.errors)
  {
    if i == j {
    } else {
      SameBatch(i, j - 1);
      BatchTally(ws, existing, run, i, j - 1);
    }
  }

  lemma {:induction false} PlansHave(ws: seq<Workflow>, existing: set<string>, i: nat, j: nat, p: nat)
    requires Keyed(ws) && i <= j <= |ws| && p < |ws|
    ensures ws[p].id in Ids(Plans(ws, existing, i, j)) <==> i <= p < j && Plan(ws[p], existing).Some?
  {
    if i == j {
    } else {
      var plan := Plan(ws[j - 1], existing);
      PlansHave(ws, existing, i, j - 1, p);
      IdsConcat(Plans(ws, existing, i, j - 1), if plan.Some? then [plan.value] else []);
      assert plan.Some? ==> [plan.value][0].workflowId == ws[j - 1].id;
    }
  }

  lemma {:induction false} IdsConcat(a: seq<Version>, b: seq<Version>)
    ensures Ids(a + b) == Ids(a) + Ids(b)
  {
    forall id | id in Ids(a) + Ids(b) ensures id in Ids(a + b) {
      if id in Ids(a) {
        var i :| 0 <= i < |a| && a[i].workflowId == id;
        assert (a + b)[i].workflowId == id;
      } else {
        var i :| 0 <= i < |b| && b[i].workflowId == id;
        assert (a + b)[|a| + i].workflowId == id;
      }
    }
  }

  lemma {:induction false} BatchRows(ws: seq<Workflow>, existing: set<string>, run: Run, i: nat, j: nat)
    requires Keyed(ws) && i <= j <= |ws| && StartsBatch(i) && j <= i + BATCH_SIZE
    ensures Rows(ws, existing, run, j) ==
            if run.dryRun || run.faults(BatchOf(i)) != NoFault then Rows(ws, existing, run, i)
            else Marked(Rows(ws, existing, run, i), Ids(Plans(ws, existing, i, j)))
  {
    var ids := Ids(Plans(ws, existing, i, j));
    forall p | 0 <= p < |ws|
      ensures Rows(ws, existing, run, j)[p] ==
              if run.dryRun || run.faults(BatchOf(i)) != NoFault then Rows(ws, existing, run, i)[p]
              else Marked(Rows(ws, existing, run, i), ids)[p]
    {
      PlansHave(ws, existing, i, j, p);
      if i <= p < j {
        SameBatch(i, p);
      }
    }
  }

  // ---------- How far a run gets, and what it counts ----------

  /** The state loader is asked for this workflow, which has neither a version nor a state of its own, and throws. */
  ghost predicate Throws(ws: seq<Workflow>, existing: set<string>, run: Run, p: nat) {
    p < |ws| && ws[p].id !in existing && ws[p].deployedState == None && run.loadFails(p)
  }

  lemma {:induction false} FirstThrowIs(ws: seq<Workflow>, existing: set<string>, run: Run, p: nat)
    requires p <= |ws|
    ensures var q := FirstThrow(ws, existing, run, p);
            (forall r: nat :: p <= r < q ==> !Throws(ws, existing, run, r)) && (q < |ws| ==> Throws(ws, existing, run, q))
    decreases |ws| - p
  {
    if p == |ws| || LoadThrows(ws[p], p, existing, run) {
    } else {
      FirstThrowIs(ws, existing, run, p + 1);
    }
  }

  /** A run gets through all workflows, or through the whole batches of fifty before the first at which the loader throws. */
  lemma {:induction false} DoneIs(ws: seq<Workflow>, existing: set<string>, run: Run)
    ensures var n := Done(ws, existing, run);
            || (n == |ws| && forall p: nat :: !Throws(ws, existing, run, p))
            || (n % 50 == 0 && exists q: nat :: n <= q < n + 50 && Throws(ws, existing, run, q) &&
                                               forall p: nat :: p < q ==> !Throws(ws, existing, run, p))
  {
    FirstThrowIs(ws, existing, run, 0);
  }

  ghost predicate Plannable(w: Workflow, existing: set<string>) {
    w.id !in existing && (w.deployedState.Some? || w.normalized.Some?)
  }

  ghost predicate StorageFails(run: Run, p: nat) {
    !run.dryRun && run.faults(p / 50) != NoFault
  }

  ghost function One(b: bool): int {
    if b then 1 else 0
  }

  /** Success counts what could be planned and was stored or only looked at, errors what could not be stored. */
  ghost predicate CountsLaw(ws: seq<Workflow>, existing: set<string>, run: Run, n: nat, c: Counts) {
    && c.success == Sum((p: nat) => One(p < |ws| && Plannable(ws[p], existing) && !StorageFails(run, p)), n)
    && c.errors == Sum((p: nat) => One(p < |ws| && Plannable(ws[p], existing) && StorageFails(run, p)), n)
    && c.skipped == Sum((p: nat) => One(p < |ws| && !Plannable(ws[p], existing)), n)
  }

  lemma {:induction false} CountsAre(ws: seq<Workflow>, existing: set<string>, run: Run, n: nat)
    requires n <= |ws|
    ensures CountsLaw(ws, existing, run, n, Tally(ws, existing, run, n))
  {
    if n == 0 {
    } else {
      CountsAre(ws, existing, run, n - 1);
    }
  }

  // ---------- What one run does ----------

  /** Every workflow is counted once, and no counter is negative. */
  lemma {:induction false} CountsAddUp(ws: seq<Workflow>, existing: set<string>, run: Run, n: nat)
    requires n <= |ws|
    ensures var c := Tally(ws, existing, run, n);
            c.success + c.skipped + c.errors == n && c.success >= 0 && c.skipped >= 0 && c.errors >= 0
  {
    if n == 0 {
    } else {
      CountsAddUp(ws, existing, run, n - 1);
    }
  }

  /** A dry run leaves the tables alone, whatever it counts. */
  lemma {:induction false} DryRunChangesNothing(t: Tables, run: Run)
    requires run.dryRun
    ensures Migrated(t, run) == t
  {
    var n := Done(t.workflows, Ids(t.versions), run);
    NothingInserted(t.workflows, Ids(t.versions), run, n);
    assert Rows(t.workflows, Ids(t.versions), run, n) == t.workflows;
  }

  lemma {:induction false} NothingInserted(ws: seq<Workflow>, existing: set<string>, run: Run, n: nat)
    requires n <= |ws|
    requires forall p :: 0 <= p < n && Plan(ws[p], existing).Some? ==> run.dryRun || FaultAt(run, p) == InsertFails
    ensures Inserted(ws, existing, run, n) == []
  {
    if n == 0 {
    } else {
      NothingInserted(ws, existing, run, n - 1);
    }
  }

  function OfWorkflow(id: string): Version -> Option<Version> {
    (v: Version) => if v.workflowId == id then Some(v) else None
  }

  function VersionsOf(versions: seq<Version>, id: string): seq<Version> {
    Pick(versions, OfWorkflow(id))
  }

  lemma {:induction false} GainOf(w: Workflow, p: nat, existing: set<string>, run: Run, id: string)
    ensures VersionsOf(Gain(w, p, existing, run), id) == if w.id == id then Gain(w, p, existing, run) else []
  {
    var gain := Gain(w, p, existing, run);
    if gain != [] {
      assert gain[..0] == [] && VersionsOf(gain[..0], id) == [];
    }
  }

  /** Only position p adds rows of this workflow. */
  lemma {:induction false} GlueFor(rows: nat -> seq<Version>, id: string, n: nat, p: nat)
    requires forall q: nat :: q < n ==> VersionsOf(rows(q), id) == if q == p then rows(q) else []
    ensures VersionsOf(Glue([], rows, n), id) == if p < n then rows(p) else []
  {
    if n == 0 {
    } else {
      GlueFor(rows, id, n - 1, p);
      PickConcat(Glue([], rows, n - 1), rows(n - 1), OfWorkflow(id));
    }
  }

  lemma {:induction false} InsertedFor(ws: seq<Workflow>, existing: set<string>, run: Run, n: nat, p: nat)
    requires Keyed(ws) && p < |ws| && n <= |ws|
    ensures VersionsOf(Inserted(ws, existing, run, n), ws[p].id) == if p < n then Gain(ws[p], p, existing, run) else []
  {
    var rows := Gains(ws, existing, run);
    forall q: nat | q < n ensures VersionsOf(rows(q), ws[p].id) == if q == p then rows(q) else [] {
      GainOf(ws[q], q, existing, run, ws[p].id);
    }
    GlueFor(rows, ws[p].id, n, p);
  }

  /** What a run inserts for the workflow at p, if it gets that far. */
  function GainOfRun(t: Tables, run: Run, p: nat): seq<Version>
    requires p < |t.workflows|
  {
    if p < Done(t.workflows, Ids(t.versions), run) then Gain(t.workflows[p], p, Ids(t.versions), run) else []
  }

  /** One run, seen from one workflow: the versions it gains and whether it is marked. */
  lemma {:induction false} WorkflowAfter(t: Tables, run: Run, p: nat)
    requires Keyed(t.workflows) && p < |t.workflows|
    ensures |Migrated(t, run).workflows| == |t.workflows|
    ensures var w, after := t.workflows[p], Migrated(t, run);
            && VersionsOf(after.versions, w.id) == VersionsOf(t.versions, w.id) + GainOfRun(t, run, p)
            && after.workflows[p] == w.(isDeployed := w.isDeployed || (GainOfRun(t, run, p) != [] && FaultAt(run, p) == NoFault))
  {
    var n := Done(t.workflows, Ids(t.versions), run);
    InsertedFor(t.workflows, Ids(t.versions), run, n, p);
    PickConcat(t.versions, Inserted(t.workflows, Ids(t.versions), run, n), OfWorkflow(t.workflows[p].id));
  }

  lemma {:induction false} VersionedIff(versions: seq<Version>, id: string)
    ensures id in Ids(versions) <==> VersionsOf(versions, id) != []
  {
    if versions == [] {
    } else {
      var n := |versions| - 1;
      VersionedIff(versions[..n], id);
      IdsConcat(versions[..n], [versions[n]]);
      assert versions[..n] + [versions[n]] == versions && [versions[n]][0] == versions[n];
    }
  }

  /** A live run in which nothing fails. */
  ghost predicate Clean(run: Run) {
    !run.dryRun && (forall b: nat :: run.faults(b) == NoFault) && forall p: nat :: !run.loadFails(p)
  }

  lemma {:induction false} NothingThrows(ws: seq<Workflow>, existing: set<string>, run: Run, p: nat)
    requires p <= |ws| && forall q: nat :: !run.loadFails(q)
    ensures FirstThrow(ws, existing, run, p) == |ws|
    decreases |ws| - p
  {
    if p == |ws| {
    } else {
      NothingThrows(ws, existing, run, p + 1);
    }
  }

  predicate HasState(w: Workflow) {
    w.deployedState.Some? || w.normalized.Some?
  }

  /**
    A fault-free live run: an unversioned workflow with a state gains exactly one active version 1 of
    that state and is deployed; no other workflow changes.
    */
  lemma {:induction false} FaultFreeRun(t: Tables, run: Run, p: nat)
    requires Keyed(t.workflows) && p < |t.workflows|
    requires Clean(run)
    ensures |Migrated(t, run).workflows| == |t.workflows|
    ensures var w, after := t.workflows[p], Migrated(t, run);
            var state := if w.deployedState.Some? then w.deployedState else w.normalized;
            if VersionsOf(t.versions, w.id) == [] && HasState(w)
            then VersionsOf(after.versions, w.id) == [Version(w.id, 1, state.value, true)] && after.workflows[p].isDeployed
            else VersionsOf(after.versions, w.id) == VersionsOf(t.versions, w.id) && after.workflows[p] == w
  {
    NothingThrows(t.workflows, Ids(t.versions), run, 0);
    WorkflowAfter(t, run, p);
    VersionedIff(t.versions, t.workflows[p].id);
  }

  // ---------- Any number of runs ----------

  function MigratedAll(t: Tables, runs: seq<Run>): Tables {
    if runs == [] then t else Migrated(MigratedAll(t, runs[..|runs| - 1]), runs[|runs| - 1])
  }

  ghost predicate SameWorkflows(a: seq<Workflow>, b: seq<Workflow>) {
    |a| == |b| && forall p :: 0 <= p < |a| ==> b[p] == a[p].(isDeployed := b[p].isDeployed)
  }

  lemma {:induction false} RunsKeepWorkflows(t: Tables, runs: seq<Run>)
    requires Keyed(t.workflows)
    ensures SameWorkflows(t.workflows, MigratedAll(t, runs).workflows) && Keyed(MigratedAll(t, runs).workflows)
  {
    if runs == [] {
    } else {
      RunsKeepWorkflows(t, runs[..|runs| - 1]);
    }
  }

  /**
    Whatever fails in whichever run, a workflow that has versions keeps them as they are, and one that
    has none never gets more than one.
    */
  lemma {:induction false} NeverASecondVersion(t: Tables, runs: seq<Run>, p: nat)
    requires Keyed(t.workflows) && p < |t.workflows|
    ensures var id := t.workflows[p].id;
            var before, after := VersionsOf(t.versions, id), VersionsOf(MigratedAll(t, runs).versions, id);
            if before != [] then after == before else |after| <= 1
  {
    if runs == [] {
    } else {
      var n := |runs| - 1;
      NeverASecondVersion(t, runs[..n], p);
      RunsKeepWorkflows(t, runs[..n]);
      OneRunAddsOnce(MigratedAll(t, runs[..n]), runs[n], p);
    }
  }

  lemma {:induction false} OneRunAddsOnce(t: Tables, run: Run, p: nat)
    requires Keyed(t.workflows) && p < |t.workflows|
    ensures var id := t.workflows[p].id;
            var before, after := VersionsOf(t.versions, id), VersionsOf(Migrated(t, run).versions, id);
            if before != [] then after == before else |after| <= 1
  {
    WorkflowAfter(t, run, p);
    VersionedIff(t.versions, t.workflows[p].id);
  }

  /** However many runs failed before, one fault-free live run leaves every workflow with a state at exactly one version. */
  lemma {:induction false} CleanRerunCompletes(t: Tables, runs: seq<Run>, clean: Run, p: nat)
    requires Keyed(t.workflows) && p < |t.workflows|
    requires VersionsOf(t.versions, t.workflows[p].id) == [] && HasState(t.workflows[p])
    requires Clean(clean)
    ensures |VersionsOf(Migrated(MigratedAll(t, runs), clean).versions, t.workflows[p].id)| == 1
  {
    NeverASecondVersion(t, runs, p);
    RunsKeepWorkflows(t, runs);
    FaultFreeRun(MigratedAll(t, runs), clean, p);
  }

  /** After a fault-free live run any further run inserts nothing and changes nothing. */
  lemma {:induction false} SecondRunDoesNothing(t: Tables, first: Run, second: Run)
    requires Keyed(t.workflows)
    requires Clean(first)
    ensures Migrated(Migrated(t, first), second) == Migrated(t, first)
  {
    var after := Migrated(t, first);
    forall p | 0 <= p < |t.workflows| ensures Plan(after.workflows[p], Ids(after.versions)).None? {
      FaultFreeRun(t, first, p);
      VersionedIff(after.versions, t.workflows[p].id);
    }
    var n := Done(after.workflows, Ids(after.versions), second);
    NothingInserted(after.workflows, Ids(after.versions), second, n);
    assert Rows(after.workflows, Ids(after.versions), second, n) == after.workflows;
  }

  /** A version without the mark. */
  ghost predicate HalfMigrated(t: Tables, p: nat)
    requires p < |t.workflows|
  {
    VersionsOf(t.versions, t.workflows[p].id) != [] && !t.workflows[p].isDeployed
  }

  /**
    A run leaves a workflow half migrated that was not exactly when it got as far, planned a version for
    it, the workflow was not marked before, and its batch failed between the two statements. The run
    counts such a workflow as an error.
    */
  lemma {:induction false} HalfMigratedIff(t: Tables, run: Run, p: nat)
    requires Keyed(t.workflows) && p < |t.workflows| && !HalfMigrated(t, p)
    ensures |Migrated(t, run).workflows| == |t.workflows|
    ensures HalfMigrated(Migrated(t, run), p) <==>
            && Plan(t.workflows[p], Ids(t.versions)).Some? && !t.workflows[p].isDeployed
            && p < Done(t.workflows, Ids(t.versions), run) && !run.dryRun && FaultAt(run, p) == UpdateFails
    ensures HalfMigrated(Migrated(t, run), p) ==> Judged(t.workflows[p], p, Ids(t.versions), run) == Erred
  {
    WorkflowAfter(t, run, p);
    VersionedIff(t.versions, t.workflows[p].id);
  }

  /** And no later run, faulty or not, ever marks it: it is skipped from then on. */
  lemma {:induction false} HalfMigratedForGood(t: Tables, runs: seq<Run>, p: nat)
    requires Keyed(t.workflows) && p < |t.workflows| && HalfMigrated(t, p)
    ensures |MigratedAll(t, runs).workflows| == |t.workflows| && HalfMigrated(MigratedAll(t, runs), p)
  {
    if runs == [] {
    } else {
      var n := |runs| - 1;
      HalfMigratedForGood(t, runs[..n], p);
      RunsKeepWorkflows(t, runs[..n]);
      WorkflowAfter(MigratedAll(t, runs[..n]), runs[n], p);
      VersionedIff(MigratedAll(t, runs[..n]).versions, t.workflows[p].id);
    }
  }
}
