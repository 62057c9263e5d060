/** Cutover cohorts: one raw row per task, orphan hold and unattributable artifact.

    The collector links the same tasks and holds the reconciliation checks, plus runs and
    artifacts.  It is proved to lose no artifact, and on a ledger the reconciliation finds
    sound it counts every hold exactly once. */
module LabCohorts {
  import opened Bags
  import opened Lexicographic
  import opened LabLedger
  import opened LabReconciler
  import opened LabBalance

  // ---------------------------------------------------------------- rows

  datatype RunStatus =
    | RunQueued | RunActive | NeedsApproval | Succeeded | RunFailed | RunCancelled
    | UnknownRunStatus(text: string)

  datatype Run = Run(id: string, taskId: Option<string>, status: RunStatus)

  datatype ScanStatus = ScanSkipped | ScanPending | ScanClean | ScanFlagged | UnknownScan(text: string)

  datatype CheckStatus = Unverified | Verified | CheckRejected | UnknownCheck(text: string)

  datatype Artifact = Artifact(
    id: Option<string>, taskId: Option<string>, runId: Option<string>, scan: ScanStatus, check: CheckStatus)

  datatype Tables = Tables(tasks: seq<Task>, holds: seq<Hold>, runs: seq<Run>, artifacts: seq<Artifact>)

  datatype HoldCell = NoHold | SomeHold(status: HoldStatus)
  datatype RunCell = NoRun | SomeRun(status: RunStatus)
  datatype ArtifactState = NoArtifacts | V1Candidate | V1Verified | V1RejectedOrQuarantined

  datatype RowId = TaskRow(task: string) | HoldRow(hold: string) | ArtifactRow(artifact: Option<string>, position: nat)

  datatype Problem =
    | NoTaskBinding | UnknownTask | NoRunBinding | UnknownRun | RunOfOtherTask
    | UnknownArtifactStatus | AmbiguousArtifactStates
    | AcceptedRunMissing | RunNotAccepted
    | AmbiguousLinks | MissingTaskStatus | MissingArtifactState | UnknownStatus
    | OverlappingRules | Unresolved

  datatype ActualRow = ActualRow(
    id: RowId, holdId: Option<string>, runId: Option<string>,
    task: Option<TaskStatus>, hold: HoldCell, run: RunCell, artifacts: Option<ArtifactState>,
    taskCount: nat, holdCount: nat, runCount: nat, artifactCount: nat, error: Option<Problem>)

  // ---------------------------------------------------------------- artifacts and runs

  function RunKey(r: Run): string { r.id }
  function RunTask(r: Run): Option<string> {
    if r.taskId.Some? && r.taskId.value != "" then r.taskId else None
  }
  function ArtifactRun(a: Artifact): Option<string> { a.runId }

  function Tasks(t: Tables): map<string, Task> { Index(t.tasks, TaskKey) }
  function Holds(t: Tables): map<string, Hold> { Index(t.holds, HoldKey) }
  function Runs(t: Tables): map<string, Run> { Index(t.runs, RunKey) }
  function TaskIds(t: Tables): seq<string> { Distinct(Map(t.tasks, TaskKey)) }

  /** Why an artifact cannot be attributed to a task through its run; None when it can. */
  function ArtifactProblem(tasks: map<string, Task>, runs: map<string, Run>, a: Artifact): Option<Problem> {
    if a.taskId.None? || a.taskId.value == "" then Some(NoTaskBinding)
    else if a.taskId.value !in tasks then Some(UnknownTask)
    else if a.runId.None? || a.runId.value == "" then Some(NoRunBinding)
    else if a.runId.value !in runs then Some(UnknownRun)
    else if runs[a.runId.value].taskId != a.taskId then Some(RunOfOtherTask)
    else None
  }

  function Attributable(t: Tables): Artifact -> bool {
    (a: Artifact) => ArtifactProblem(Tasks(t), Runs(t), a).None?
  }

  function Unattributable(t: Tables): Artifact -> bool {
    (a: Artifact) => ArtifactProblem(Tasks(t), Runs(t), a).Some?
  }

  function AttributedArtifacts(t: Tables): seq<Artifact> { Where(t.artifacts, Attributable(t)) }

  function RunsOfTask(t: Tables, id: string): seq<Run> { Group(t.runs, RunTask, id) }

  function ArtifactsOfRun(attributed: seq<Artifact>): Run -> seq<Artifact> {
    (r: Run) => Group(attributed, ArtifactRun, r.id)
  }

  function ArtifactsOfTask(t: Tables, id: string): seq<Artifact> {
    Concat(RunsOfTask(t, id), ArtifactsOfRun(AttributedArtifacts(t)))
  }

  function KnownStatusPair(a: Artifact): bool { !a.scan.UnknownScan? && !a.check.UnknownCheck? }

  function ArtifactBucket(a: Artifact): ArtifactState {
    if a.scan == ScanFlagged || a.check == CheckRejected then V1RejectedOrQuarantined
    else if a.scan == ScanClean && a.check == Verified then V1Verified
    else V1Candidate
  }

  datatype StateOrProblem = State(state: ArtifactState) | Bad(problem: Problem)

  /** The one state all of a task's artifacts are in. */
  function CanonicalArtifactState(artifacts: seq<Artifact>): StateOrProblem {
    if artifacts == [] then State(NoArtifacts)
    else if exists a :: a in artifacts && !KnownStatusPair(a) then Bad(UnknownArtifactStatus)
    else if exists a :: a in artifacts && ArtifactBucket(a) != ArtifactBucket(artifacts[0])
    then Bad(AmbiguousArtifactStates)
    else State(ArtifactBucket(artifacts[0]))
  }

  // ---------------------------------------------------------------- the row of a task

  /** The first of a list of ids once sorted. */
  function Least(ids: seq<string>): (r: string)
    requires ids != []
    ensures r in ids
  {
    if |ids| == 1 then ids[0]
    else
      var rest := Least(ids[1..]);
      if Precedes(rest, ids[0]) then rest else ids[0]
  }

  /** The holds a task is linked to, by its own hold id or by the reason on the hold. */
  function RelatedHolds(t: Tables, task: Task): seq<string> {
    var own := if task.holdId.Some? && task.holdId.value != "" && task.holdId.value in Holds(t)
               then [task.holdId.value] else [];
    Distinct(own + Map(Group(t.holds, HoldTask, task.id), HoldKey))
  }

  /** The run a task is settled on: the accepted one, or the only one. */
  function SettledRun(runs: map<string, Run>, task: Task, related: seq<Run>): Option<Run> {
    if task.acceptedRun.Some? && task.acceptedRun.value != "" then
      if task.acceptedRun.value in runs && runs[task.acceptedRun.value].taskId == Some(task.id)
      then Some(runs[task.acceptedRun.value]) else None
    else if |related| == 1 then Some(related[0])
    else None
  }

  function RowProblem(task: Task, related: seq<Run>, run: Option<Run>, state: StateOrProblem): Option<Problem> {
    var accepted := task.acceptedRun.Some? && task.acceptedRun.value != "";
    if accepted && run.None? then Some(AcceptedRunMissing)
    else if !accepted && related != [] then Some(RunNotAccepted)
    else if state.Bad? then Some(state.problem)
    else None
  }

  function RowOfTask(t: Tables, id: string, task: Task): ActualRow {
    var ids := RelatedHolds(t, task);
    var related := RunsOfTask(t, id);
    var run := SettledRun(Runs(t), task, related);
    var artifacts := ArtifactsOfTask(t, id);
    var state := CanonicalArtifactState(artifacts);
    ActualRow(
      TaskRow(id),
      if ids == [] then None else Some(Least(ids)),
      if run.None? then None else Some(run.value.id),
      Some(task.status),
      if ids == [] || Least(ids) !in Holds(t) then NoHold else SomeHold(Holds(t)[Least(ids)].status),
      if run.None? then NoRun else SomeRun(run.value.status),
      if state.State? then Some(state.state) else None,
      1, |ids|, |related|, |artifacts|,
      RowProblem(task, related, run, state))
  }

  function TaskRowRule(t: Tables): string -> seq<ActualRow> {
    (id: string) => if id in Tasks(t) then [RowOfTask(t, id, Tasks(t)[id])] else []
  }

  // ---------------------------------------------------------------- orphan holds, stray artifacts

  function LinkedRule(t: Tables): string -> seq<string> {
    (id: string) => if id in Tasks(t) then RelatedHolds(t, Tasks(t)[id]) else []
  }

  function LinkedHoldIds(t: Tables): seq<string> { Concat(TaskIds(t), LinkedRule(t)) }

  function HoldIdList(t: Tables): seq<string> { Distinct(Map(t.holds, HoldKey)) }

  function OrphanRule(t: Tables): string -> seq<ActualRow> {
    (k: string) =>
      if k in Holds(t) && k !in LinkedHoldIds(t)
      then [ActualRow(HoldRow(k), Some(k), None, None, SomeHold(Holds(t)[k].status), NoRun, Some(NoArtifacts),
                      0, 1, 0, 0, None)]
      else []
  }

  function StrayRow(
    tasks: map<string, Task>, runs: map<string, Run>, i: nat, a: Artifact, problem: Problem): ActualRow {
    ActualRow(
      ArtifactRow(a.id, i), None, a.runId, None, NoHold, NoRun, None,
      if a.taskId.Some? && a.taskId.value in tasks then 1 else 0, 0,
      if a.runId.Some? && a.runId.value in runs then 1 else 0, 1, Some(problem))
  }

  /** Rows for the artifacts that cannot be attributed, in table order. */
  function StrayRows(tasks: map<string, Task>, runs: map<string, Run>, artifacts: seq<Artifact>): seq<ActualRow> {
    if artifacts == [] then []
    else
      var i := |artifacts| - 1;
      var rest := StrayRows(tasks, runs, artifacts[..i]);
      var problem := ArtifactProblem(tasks, runs, artifacts[i]);
      if problem.Some? then rest + [StrayRow(tasks, runs, i, artifacts[i], problem.value)] else rest
  }

  function TaskRows(t: Tables): seq<ActualRow> { Concat(TaskIds(t), TaskRowRule(t)) }

  function OrphanRows(t: Tables): seq<ActualRow> { Concat(HoldIdList(t), OrphanRule(t)) }

  function ActualRows(t: Tables): seq<ActualRow> {
    TaskRows(t) + OrphanRows(t) + StrayRows(Tasks(t), Runs(t), t.artifacts)
  }

  // ---------------------------------------------------------------- the collector

  method SortArtifacts(t: Tables) returns (byRun: Groups<string, Artifact>, strays: seq<ActualRow>)
    ensures Grouped(byRun, AttributedArtifacts(t), ArtifactRun)
    ensures strays == StrayRows(Tasks(t), Runs(t), t.artifacts)
  {
    var tasks, runs := Tasks(t), Runs(t);
    var attributed: seq<Artifact> := [];
    strays := [];
    for i := 0 to |t.artifacts|
      invariant attributed == Where(t.artifacts[..i], Attributable(t))
      invariant strays == StrayRows(tasks, runs, t.artifacts[..i])
    {
      TakeOne(t.artifacts, i);
      var problem := ArtifactProblem(tasks, runs, t.artifacts[i]);
      if problem.Some? {
        strays := strays + [StrayRow(tasks, runs, i, t.artifacts[i], problem.value)];
        continue;
      }
      attributed := attributed + [t.artifacts[i]];
    }
    TakeAll(t.artifacts);
    byRun := GroupRows(attributed, ArtifactRun);
  }

  method PickRun(runs: map<string, Run>, task: Task, related: seq<Run>) returns (run: Option<Run>)
    ensures run == SettledRun(runs, task, related)
  {
    run := None;
    if task.acceptedRun.Some? && task.acceptedRun.value != "" {
      if task.acceptedRun.value in runs {
        var candidate := runs[task.acceptedRun.value];
        if candidate.taskId == Some(task.id) {
          run := Some(candidate);
        }
      }
    } else if |related| == 1 {
      run := Some(related[0]);
    }
  }

  method ListArtifacts(ghost attributed: seq<Artifact>, byRun: Groups<string, Artifact>, related: seq<Run>)
    returns (artifacts: seq<Artifact>)
    requires Grouped(byRun, attributed, ArtifactRun)
    ensures artifacts == Concat(related, ArtifactsOfRun(attributed))
  {
    hide Grouped;
    artifacts := [];
    for i := 0 to |related|
      invariant artifacts == Concat(related[..i], ArtifactsOfRun(attributed))
    {
      ConcatOneMore(related, i, ArtifactsOfRun(attributed));
      FiledIsGroup(byRun, attributed, ArtifactRun, related[i].id);
      artifacts := artifacts + Filed(byRun, related[i].id);
    }
    TakeAll(related);
  }

  method JudgeRow(
    task: Task, related: seq<Run>, run: Option<Run>, state: StateOrProblem) returns (error: Option<Problem>)
    ensures error == RowProblem(task, related, run, state)
  {
    error := if state.Bad? then Some(state.problem) else None;
    var accepted := task.acceptedRun.Some? && task.acceptedRun.value != "";
    if accepted && run.None? {
      error := Some(AcceptedRunMissing);
    } else if !accepted && related != [] {
      error := Some(RunNotAccepted);
    }
  }

  method CollectTaskRow(
    t: Tables, id: string, task: Task, holdsByReason: Groups<string, Hold>, runsByTask: Groups<string, Run>,
    byRun: Groups<string, Artifact>)
    returns (row: ActualRow, linked: seq<string>)
    requires Filed(holdsByReason, task.id) == Group(t.holds, HoldTask, task.id)
    requires Filed(runsByTask, id) == RunsOfTask(t, id)
    requires Grouped(byRun, AttributedArtifacts(t), ArtifactRun)
    ensures row == RowOfTask(t, id, task)
    ensures linked == RelatedHolds(t, task)
  {
    hide Grouped, AttributedArtifacts, ArtifactsOfRun, CanonicalArtifactState, RowProblem, SettledRun, Concat, Distinct,
      Group, Index, Filed, RunsOfTask;
    var holds, runs := Holds(t), Runs(t);
    var own := if task.holdId.Some? && task.holdId.value != "" && task.holdId.value in holds
               then [task.holdId.value] else [];
    linked := Distinct(own + Map(Filed(holdsByReason, task.id), HoldKey));
    var related := Filed(runsByTask, id);
    var run := PickRun(runs, task, related);
    var artifacts := ListArtifacts(AttributedArtifacts(t), byRun, related);
    var state := CanonicalArtifactState(artifacts);
    var error := JudgeRow(task, related, run, state);
    row := ActualRow(
      TaskRow(id),
      if linked == [] then None else Some(Least(linked)),
      if run.None? then None else Some(run.value.id),
      Some(task.status),
      if linked == [] || Least(linked) !in holds then NoHold else SomeHold(holds[Least(linked)].status),
      if run.None? then NoRun else SomeRun(run.value.status),
      if state.State? then Some(state.state) else None,
      1, |linked|, |related|, |artifacts|, error);
  }

  method CollectActualRows(t: Tables) returns (rows: seq<ActualRow>)
    ensures rows == ActualRows(t)
  {
    var runsByTask := GroupRows(t.runs, RunTask);
    var holdsByReason := GroupRows(t.holds, HoldTask);
    var byRun, strays := SortArtifacts(t);
    var order := TaskIds(t);
    var linkedIds: seq<string> := [];
    rows := [];
    for i := 0 to |order|
      invariant rows == Concat(order[..i], TaskRowRule(t))
      invariant linkedIds == Concat(order[..i], LinkedRule(t))
    {
      ConcatOneMore(order, i, TaskRowRule(t));
      ConcatOneMore(order, i, LinkedRule(t));
      var id := order[i];
      TaskIdKnown(t, id);
      FiledIsGroup(runsByTask, t.runs, RunTask, id);
      FiledIsGroup(holdsByReason, t.holds, HoldTask, Tasks(t)[id].id);
      var row, linked := CollectTaskRow(t, id, Tasks(t)[id], holdsByReason, runsByTask, byRun);
      rows, linkedIds := rows + [row], linkedIds + linked;
    }
    TakeAll(order);
    var holdOrder := HoldIdList(t);
    var orphans: seq<ActualRow> := [];
    for i := 0 to |holdOrder|
      invariant orphans == Concat(holdOrder[..i], OrphanRule(t))
    {
      ConcatOneMore(holdOrder, i, OrphanRule(t));
      var k := holdOrder[i];
      HoldIdListed(t, k);
      if k in linkedIds {
        assert orphans + [] == orphans;
        continue;
      }
      orphans := orphans + [ActualRow(HoldRow(k), Some(k), None, None, SomeHold(Holds(t)[k].status), NoRun,
                                      Some(NoArtifacts), 0, 1, 0, 0, None)];
    }
    TakeAll(holdOrder);
    rows := rows + orphans + strays;
  }

  lemma TaskIdKnown(t: Tables, id: string)
    ensures id in TaskIds(t) <==> id in Tasks(t)
  {
  }

  lemma HoldIdListed(t: Tables, id: string)
    ensures id in HoldIdList(t) <==> id in Holds(t)
  {
  }

  // ---------------------------------------------------------------- no artifact is lost

  function ArtifactCount(r: ActualRow): int { r.artifactCount }

  lemma {:induction false} StraysCount(
    tasks: map<string, Task>, runs: map<string, Run>, artifacts: seq<Artifact>, stray: Artifact -> bool)
    requires forall a :: stray(a) == ArtifactProblem(tasks, runs, a).Some?
    ensures Total(StrayRows(tasks, runs, artifacts), ArtifactCount) == |Where(artifacts, stray)|
  {
    if artifacts != [] {
      var i := |artifacts| - 1;
      StraysCount(tasks, runs, artifacts[..i], stray);
      var rest := StrayRows(tasks, runs, artifacts[..i]);
      var problem := ArtifactProblem(tasks, runs, artifacts[i]);
      if problem.Some? {
        var row := StrayRow(tasks, runs, i, artifacts[i], problem.value);
        assert (rest + [row])[..|rest|] == rest;
        assert Total(rest + [row], ArtifactCount) == Total(rest, ArtifactCount) + 1;
      }
    }
  }

  lemma {:induction false} WhereComplement<A(!new)>(rows: seq<A>, p: A -> bool, q: A -> bool)
    requires forall a :: q(a) == !p(a)
    ensures |Where(rows, p)| + |Where(rows, q)| == |rows|
  {
    if rows != [] {
      WhereComplement(rows[..|rows| - 1], p, q);
    }
  }

  lemma {:induction false} ConcatLength<A(!new), B(!new)>(rows: seq<A>, f: A -> seq<B>, length: A -> int)
    requires forall a :: a in rows ==> length(a) == |f(a)|
    ensures |Concat(rows, f)| == Total(rows, length)
  {
    if rows != [] {
      var front, last := rows[..|rows| - 1], rows[|rows| - 1];
      assert rows == front + [last];
      ConcatLength(front, f, length);
    }
  }

  function RunRef(r: Run): Option<string> { Some(r.id) }

  function KnownRun(t: Tables): Run -> bool {
    (r: Run) => RunTask(r).Some? && RunTask(r).value in Tasks(t)
  }

  /** Counting attributed artifacts run by run covers each of them once. */
  lemma AttributedByRun(t: Tables, known: seq<Run>, length: Run -> int)
    requires UniqueKeys(t.runs, RunKey)
    requires known == Where(t.runs, KnownRun(t))
    requires forall r :: length(r) == |ArtifactsOfRun(AttributedArtifacts(t))(r)|
    ensures Total(known, length) == |AttributedArtifacts(t)|
  {
    var attributed := AttributedArtifacts(t);
    var one := (a: Artifact) => 1;
    forall a | a in attributed ensures exists r :: r in known && RunRef(r) == ArtifactRun(a) {
      var r :| r in t.runs && RunRef(r) == ArtifactRun(a) && r.taskId == a.taskId
               && RunTask(r).Some? && RunTask(r).value in Tasks(t);
      WhereMember(t.runs, KnownRun(t), r);
    }
    forall r | r in known ensures length(r) == Total(Where(attributed, Labelled(ArtifactRun, RunRef(r))), one) {
      TotalOnes(Where(attributed, Labelled(ArtifactRun, RunRef(r))), one);
    }
    WhereUnique(t.runs, RunKey, KnownRun(t));
    PartitionTotal(known, RunRef, attributed, ArtifactRun, one, length);
    TotalOnes(attributed, one);
  }

  lemma {:induction false} WhereUnique<K(!new), V(!new)>(rows: seq<V>, key: V -> K, p: V -> bool)
    requires UniqueKeys(rows, key)
    ensures UniqueKeys(Where(rows, p), key)
  {
    if rows != [] {
      var front, last := rows[..|rows| - 1], rows[|rows| - 1];
      assert rows == front + [last];
      WhereUnique(front, key, p);
      forall v | v in front ensures key(v) != key(last) {
        var i :| 0 <= i < |front| && front[i] == v;
        assert rows[i] == v;
      }
    }
  }

  function TaskRef(id: string): Option<string> { Some(id) }

  /** The artifacts listed task by task are the attributable ones, each listed once. */
  lemma ArtifactsByTask(t: Tables, length: string -> int)
    requires UniqueKeys(t.runs, RunKey)
    requires forall id :: length(id) == |ArtifactsOfTask(t, id)|
    ensures Total(TaskIds(t), length) == |AttributedArtifacts(t)|
  {
    var known := Where(t.runs, KnownRun(t));
    var ofRun := (r: Run) => |ArtifactsOfRun(AttributedArtifacts(t))(r)|;
    AttributedByRun(t, known, ofRun);
    DistinctUnique(Map(t.tasks, TaskKey));
    forall r | r in known ensures exists id :: id in TaskIds(t) && TaskRef(id) == RunTask(r) {
      TaskIdKnown(t, RunTask(r).value);
      assert TaskRef(RunTask(r).value) == RunTask(r);
    }
    forall id | id in TaskIds(t) ensures length(id) == Total(Where(known, Labelled(RunTask, TaskRef(id))), ofRun) {
      TaskIdKnown(t, id);
      ConcatLength(RunsOfTask(t, id), ArtifactsOfRun(AttributedArtifacts(t)), ofRun);
      NarrowTwice(t.runs, KnownRun(t), Labelled(RunTask, Some(id)));
    }
    PartitionTotal(TaskIds(t), TaskRef, known, RunTask, ofRun, length);
  }

  lemma TaskRowsCount(t: Tables)
    requires UniqueKeys(t.runs, RunKey)
    ensures Total(TaskRows(t), ArtifactCount) == |AttributedArtifacts(t)|
  {
    var length := (id: string) => |ArtifactsOfTask(t, id)|;
    forall id | id in TaskIds(t) ensures length(id) == Total(TaskRowRule(t)(id), ArtifactCount) {
      TaskIdKnown(t, id);
    }
    ConcatTotal(TaskIds(t), TaskRowRule(t), ArtifactCount, length);
    ArtifactsByTask(t, length);
  }

  /** Every artifact of the snapshot, attributable or not, is counted in exactly one row. */
  lemma ArtifactsConserved(t: Tables)
    requires UniqueKeys(t.runs, RunKey)
    ensures Total(ActualRows(t), ArtifactCount) == |t.artifacts|
  {
    TaskRowsCount(t);
    var none := (k: string) => 0;
    forall k | k in HoldIdList(t) ensures none(k) == Total(OrphanRule(t)(k), ArtifactCount) {
      var rows := OrphanRule(t)(k);
      if rows != [] {
        assert rows == [rows[0]];
      }
    }
    ConcatTotal(HoldIdList(t), OrphanRule(t), ArtifactCount, none);
    TotalZero(HoldIdList(t), none);
    StraysCount(Tasks(t), Runs(t), t.artifacts, Unattributable(t));
    WhereComplement(t.artifacts, Attributable(t), Unattributable(t));
    TotalSplit(TaskRows(t) + OrphanRows(t), StrayRows(Tasks(t), Runs(t), t.artifacts), ArtifactCount);
    TotalSplit(TaskRows(t), OrphanRows(t), ArtifactCount);
  }

  // ---------------------------------------------------------------- holds on a sound ledger

  /** The collector reads the same tasks and holds as the reconciliation. */
  ghost predicate SameLedger(t: Tables, s: Snapshot) {
    t.tasks == s.tasks && t.holds == s.holds
  }

  lemma DistinctPair(a: string)
    ensures Distinct([a]) == [a] && Distinct([a] + [a]) == [a]
  {
    assert [a][..0] == [] && ([a] + [a])[..1] == [a];
  }

  lemma BoundTaskHolds(t: Tables, task: Task, h: Hold)
    requires NoSharedKey(t.holds, HoldTask) && h in t.holds && Linked(task, h) && h.id in Holds(t)
    ensures RelatedHolds(t, task) == [h.id]
  {
    GroupSmall(t.holds, HoldTask, task.id);
    var reasons := Map(Group(t.holds, HoldTask, task.id), HoldKey);
    assert reasons == [h.id];
    DistinctPair(h.id);
    if h.id == "" {
      assert [] + reasons == [h.id];
    }
  }

  lemma UnboundTaskHolds(t: Tables, task: Task)
    requires task.holdId.None?
    requires forall h :: h in t.holds ==> HoldTask(h) != Some(task.id)
    ensures RelatedHolds(t, task) == []
  {
    WhereNone(t.holds, Labelled(HoldTask, Some(task.id)));
  }

  lemma SoundTaskHolds(t: Tables, s: Snapshot, task: Task)
    requires SameLedger(t, s) && Consistent(s) && UniqueIds(s) && task in t.tasks
    ensures RelatedHolds(t, task) == if task.holdId.Some? then [task.holdId.value] else []
  {
    assert NoSharedKey(s.holds, HoldTask) && UniqueKeys(s.tasks, TaskKey);
    hide NoSharedKey, RelatedHolds, RowsConsistent, AccountsAgree, HoldReviewed;
    if task.holdId.Some? {
      var h := HoldOfTask(s, task);
      BoundTaskHolds(t, task, h);
    } else {
      forall h | h in t.holds ensures HoldTask(h) != Some(task.id) {
        if HoldTask(h) == Some(task.id) {
          var holder := TaskOfHold(s, h);
        }
      }
      UnboundTaskHolds(t, task);
    }
  }

  lemma NoOrphans(t: Tables, s: Snapshot)
    requires SameLedger(t, s) && Consistent(s) && UniqueIds(s)
    ensures OrphanRows(t) == []
  {
    forall k | k in HoldIdList(t) ensures OrphanRule(t)(k) == [] {
      HoldIdListed(t, k);
      var task := TaskOfHold(s, Holds(t)[k]);
      SoundTaskHolds(t, s, task);
      TaskIdKnown(t, task.id);
      ConcatMember(TaskIds(t), LinkedRule(t), k);
      assert k in LinkedRule(t)(task.id);
    }
    ConcatEmpty(HoldIdList(t), OrphanRule(t));
  }

  lemma {:induction false} ConcatEmpty<A(!new), B(!new)>(rows: seq<A>, f: A -> seq<B>)
    requires forall a :: a in rows ==> f(a) == []
    ensures Concat(rows, f) == []
  {
    if rows != [] {
      var front, last := rows[..|rows| - 1], rows[|rows| - 1];
      assert rows == front + [last];
      ConcatEmpty(front, f);
    }
  }

  /** The rows in which a hold is counted. */
  function CountsHold(t: Tables, k: string): string -> bool {
    (id: string) => id in Tasks(t) && k in RelatedHolds(t, Tasks(t)[id])
  }

  /** Where the reconciliation finds nothing, the collector counts every hold in exactly one
      row, the row of its own task, and every task row counts its own hold and no other. */
  lemma SoundHoldsCountedOnce(t: Tables, s: Snapshot, h: Hold)
    requires SameLedger(t, s) && AnomalyBag(s) == multiset{} && UniqueIds(s) && h in t.holds
    ensures OrphanRows(t) == []
    ensures exists id :: id in TaskIds(t) && Where(TaskIds(t), CountsHold(t, h.id)) == [id]
              && Tasks(t)[id].holdId == Some(h.id)
    ensures forall id :: id in Tasks(t) ==>
              RowOfTask(t, id, Tasks(t)[id]).holdCount == if Tasks(t)[id].holdId.Some? then 1 else 0
  {
    CleanIffConsistent(s);
    assert NoSharedKey(s.tasks, TaskHold);
    hide AnomalyBag, RowsConsistent, KeysConsistent, AccountsAgree, HoldReviewed, NoSharedKey, RelatedHolds;
    NoOrphans(t, s);
    forall id | id in Tasks(t)
      ensures RelatedHolds(t, Tasks(t)[id]) == if Tasks(t)[id].holdId.Some? then [Tasks(t)[id].holdId.value] else []
    {
      SoundTaskHolds(t, s, Tasks(t)[id]);
    }
    var task := TaskOfHold(s, h);
    SoleRowOfHold(t, task, h);
  }

  lemma SoleRowOfHold(t: Tables, task: Task, h: Hold)
    requires NoSharedKey(t.tasks, TaskHold) && UniqueKeys(t.tasks, TaskKey)
    requires task in t.tasks && task.holdId == Some(h.id)
    requires forall id :: id in Tasks(t) ==>
               RelatedHolds(t, Tasks(t)[id]) == if Tasks(t)[id].holdId.Some? then [Tasks(t)[id].holdId.value] else []
    ensures task.id in Tasks(t) && Tasks(t)[task.id] == task
    ensures task.id in TaskIds(t) && Where(TaskIds(t), CountsHold(t, h.id)) == [task.id]
  {
    TaskIdKnown(t, task.id);
    forall id | id in TaskIds(t) && CountsHold(t, h.id)(id) ensures id == task.id {
      TaskIdKnown(t, id);
      OneHolder(t.tasks, task, Tasks(t)[id]);
    }
    DistinctUnique(Map(t.tasks, TaskKey));
    SoleMatch(TaskIds(t), CountsHold(t, h.id), task.id);
  }

  lemma OneHolder(tasks: seq<Task>, a: Task, b: Task)
    requires NoSharedKey(tasks, TaskHold) && a in tasks && b in tasks && a.holdId.Some? && a.holdId == b.holdId
    ensures a == b
  {
    GroupSmall(tasks, TaskHold, a.holdId.value);
  }

  lemma {:induction false} SoleMatch(ids: seq<string>, p: string -> bool, id: string)
    requires forall i, j :: 0 <= i < j < |ids| ==> ids[i] != ids[j]
    requires id in ids && p(id) && forall x :: x in ids && p(x) ==> x == id
    ensures Where(ids, p) == [id]
  {
    var front, last := ids[..|ids| - 1], ids[|ids| - 1];
    assert ids == front + [last];
    if last == id {
      WhereNone(front, p);
    } else {
      SoleMatch(front, p, id);
    }
  }

  // ---------------------------------------------------------------- the run of a row

  predicate HasAccepted(task: Task) { task.acceptedRun.Some? && task.acceptedRun.value != "" }

  /** The accepted run is a run of the task; without one the task has no run. */
  ghost predicate RunsInOrder(t: Tables, task: Task) {
    if HasAccepted(task) then exists r :: r in t.runs && r.id == task.acceptedRun.value && r.taskId == Some(task.id)
    else forall r :: r in t.runs ==> r.taskId != Some(task.id)
  }

  /** A task row complains of its run exactly when the runs of the task are not in order.  The
      run it names is always one of the task's own, and in a row without complaint it is the
      accepted one: the only run of a task is never taken for granted. */
  lemma NamedRunIsOwn(t: Tables, id: string)
    requires id in Tasks(t) && id != "" && UniqueKeys(t.runs, RunKey)
    ensures var task, row := Tasks(t)[id], RowOfTask(t, id, Tasks(t)[id]);
            && (row.error in {Some(AcceptedRunMissing), Some(RunNotAccepted)} <==> !RunsInOrder(t, task))
            && (row.runId.Some? ==>
                  exists r :: r in t.runs && Some(r.id) == row.runId && r.taskId == Some(id)
                      && row.run == SomeRun(r.status))
            && (row.error.None? ==>
                  (row.runId.Some? <==> HasAccepted(task)) && (HasAccepted(task) ==> row.runId == task.acceptedRun))
  {
    hide Runs, RunsOfTask, SettledRun, RelatedHolds, ArtifactsOfTask, Least, Index;
    RunIsOwn(t, id, Tasks(t)[id]);
  }

  lemma RunIsOwn(t: Tables, id: string, task: Task)
    requires task.id == id && id != "" && UniqueKeys(t.runs, RunKey)
    ensures var related := RunsOfTask(t, id);
            var run := SettledRun(Runs(t), task, related);
            && (run.Some? ==> run.value in t.runs && run.value.taskId == Some(id))
            && (if HasAccepted(task)
                then (run.Some? <==> RunsInOrder(t, task)) && (run.Some? ==> run.value.id == task.acceptedRun.value)
                else related == [] <==> RunsInOrder(t, task))
            && (related == [] && !HasAccepted(task) ==> run.None?)
  {
    hide Runs;
    RelatedRuns(t, id);
    forall r | r in t.runs ensures r.id in Runs(t) && Runs(t)[r.id] == r {
      RunById(t, r);
    }
    KnownRuns(t);
  }

  lemma RelatedRuns(t: Tables, id: string)
    requires id != ""
    ensures forall r :: r in RunsOfTask(t, id) <==> r in t.runs && r.taskId == Some(id)
    ensures RunsOfTask(t, id) == [] <==> forall r :: r in t.runs ==> r.taskId != Some(id)
  {
    var related := RunsOfTask(t, id);
    forall r ensures r in related <==> r in t.runs && r.taskId == Some(id) {
      WhereMember(t.runs, Labelled(RunTask, Some(id)), r);
    }
    if related != [] {
      assert related[0] in t.runs;
    }
  }

  lemma RunById(t: Tables, r: Run)
    requires UniqueKeys(t.runs, RunKey) && r in t.runs
    ensures r.id in Runs(t) && Runs(t)[r.id] == r
  {
    UniqueLookup(t.runs, RunKey, r);
  }

  lemma KnownRuns(t: Tables)
    ensures forall k :: k in Runs(t) ==> Runs(t)[k] in t.runs && Runs(t)[k].id == k
  {
  }
}
