/** What each row of the cutover report says, read off the tables. */
module LabRows {
  import opened Bags
  import opened Lexicographic
  import opened LabLedger
  import opened LabCohorts
  import LabFindings

  // ---------------------------------------------------------------- the rows that count

  /** The row that stands for its id: a later row with the same id replaces an earlier one. */
  ghost predicate CurrentTask(t: Tables, task: Task) {
    exists i :: 0 <= i < |t.tasks| && t.tasks[i] == task
      && forall j :: i < j < |t.tasks| ==> t.tasks[j].id != task.id
  }

  ghost predicate CurrentHold(t: Tables, h: Hold) {
    exists i :: 0 <= i < |t.holds| && t.holds[i] == h && forall j :: i < j < |t.holds| ==> t.holds[j].id != h.id
  }

  ghost predicate CurrentRun(t: Tables, r: Run) {
    exists i :: 0 <= i < |t.runs| && t.runs[i] == r && forall j :: i < j < |t.runs| ==> t.runs[j].id != r.id
  }

  // ---------------------------------------------------------------- holds of a task

  /** The task names the hold, or the hold names the task. */
  ghost predicate Names(task: Task, h: Hold) {
    || (task.holdId == Some(h.id) && h.id != "")
    || (task.id != "" && h.reason == Some("lab_task:" + task.id))
  }

  ghost function HoldsOf(t: Tables, task: Task): set<string> { set h | h in t.holds && Names(task, h) :: h.id }

  /** The hold shown is the first by id; its status is that of its row. */
  ghost predicate ShowsHold(t: Tables, task: Task, row: ActualRow) {
    var ids := HoldsOf(t, task);
    && row.holdCount == |ids|
    && (if ids == {} then row.holdId == None && row.hold == HoldCell.NoHold
        else
          && row.holdId.Some? && row.holdId.value in ids && (forall k :: k in ids ==> !Precedes(k, row.holdId.value))
          && exists h :: CurrentHold(t, h) && h.id == row.holdId.value && row.hold == SomeHold(h.status))
  }

  // ---------------------------------------------------------------- runs of a task

  function RunsFor(t: Tables, id: string): seq<Run> {
    Where(t.runs, (r: Run) => r.taskId == Some(id) && id != "")
  }

  ghost predicate ShowsRun(t: Tables, task: Task, row: ActualRow) {
    var related := RunsFor(t, task.id);
    && row.runCount == |related|
    && (if task.acceptedRun.Some? && task.acceptedRun != Some("") then
          if exists r :: IsAccepted(t, task, r) then exists r :: IsAccepted(t, task, r) && RunShown(row, r)
          else row.runId == None && row.run == NoRun
        else if |related| == 1 then RunShown(row, related[0])
        else row.runId == None && row.run == NoRun)
  }

  ghost predicate IsAccepted(t: Tables, task: Task, r: Run) {
    CurrentRun(t, r) && task.acceptedRun == Some(r.id) && r.taskId == Some(task.id)
  }

  ghost predicate RunShown(row: ActualRow, r: Run) { row.runId == Some(r.id) && row.run == SomeRun(r.status) }

  // ---------------------------------------------------------------- artifacts of a task

  /** Why an artifact belongs to no task. */
  ghost predicate Astray(t: Tables, a: Artifact, why: Problem) {
    if a.taskId == None || a.taskId == Some("") then why == NoTaskBinding
    else if forall task :: task in t.tasks ==> Some(task.id) != a.taskId then why == UnknownTask
    else if a.runId == None || a.runId == Some("") then why == NoRunBinding
    else if forall r :: r in t.runs ==> Some(r.id) != a.runId then why == UnknownRun
    else why == RunOfOtherTask && exists r :: CurrentRun(t, r) && Some(r.id) == a.runId && r.taskId != a.taskId
  }

  ghost predicate Placed(t: Tables, a: Artifact) {
    && a.taskId.Some? && a.taskId != Some("") && a.runId.Some? && a.runId != Some("")
    && (exists task :: task in t.tasks && Some(task.id) == a.taskId)
    && exists r :: CurrentRun(t, r) && Some(r.id) == a.runId && r.taskId == a.taskId
  }

  /** The artifact counts for the task: it is placed, and made in one of the task's runs. */
  ghost predicate Belongs(t: Tables, id: string, a: Artifact) {
    a in t.artifacts && Placed(t, a) && exists r :: r in RunsFor(t, id) && a.runId == Some(r.id)
  }

  ghost function ArtifactsIn(t: Tables): Run -> int {
    (r: Run) => |Where(t.artifacts, (a: Artifact) => Placed(t, a) && a.runId == Some(r.id))|
  }

  ghost predicate Readable(a: Artifact) {
    && (a.scan == ScanSkipped || a.scan == ScanPending || a.scan == ScanClean || a.scan == ScanFlagged)
    && (a.check == Unverified || a.check == Verified || a.check == CheckRejected)
  }

  /** What an artifact's scan and check make of it. */
  ghost predicate Counts(a: Artifact, state: ArtifactState) {
    match state
    case NoArtifacts => false
    case V1RejectedOrQuarantined => a.scan == ScanFlagged || a.check == CheckRejected
    case V1Verified => a.scan == ScanClean && a.check == Verified
    case V1Candidate =>
      a.scan != ScanFlagged && a.check != CheckRejected && (a.scan != ScanClean || a.check != Verified)
  }

  /** The state shown for a task: that of all its artifacts, if they can be read and agree. */
  ghost predicate ShowsArtifacts(t: Tables, id: string, row: ActualRow) {
    if exists a :: Belongs(t, id, a) && !Readable(a) then row.artifacts == None
    else
      match row.artifacts
      case Some(NoArtifacts) => forall a :: !Belongs(t, id, a)
      case Some(state) => (exists a :: Belongs(t, id, a)) && forall a :: Belongs(t, id, a) ==> Counts(a, state)
      case None => exists a, b :: Belongs(t, id, a) && Belongs(t, id, b) && Differ(a, b)
  }

  ghost predicate Differ(a: Artifact, b: Artifact) { exists state :: Counts(a, state) && !Counts(b, state) }

  /** The complaint of a task row: about its run first, then about its artifacts. */
  ghost predicate Complains(t: Tables, task: Task, row: ActualRow) {
    row.error ==
      if task.acceptedRun.Some? && task.acceptedRun != Some("") && row.runId == None then Some(AcceptedRunMissing)
      else if (task.acceptedRun == None || task.acceptedRun == Some("")) && row.runCount > 0 then Some(RunNotAccepted)
      else if exists a :: Belongs(t, task.id, a) && !Readable(a) then Some(UnknownArtifactStatus)
      else if row.artifacts == None then Some(AmbiguousArtifactStates)
      else None
  }

  /** What the row of a task says. */
  ghost predicate RowSays(t: Tables, task: Task, row: ActualRow) {
    && row.id == TaskRow(task.id) && row.task == Some(task.status) && row.taskCount == 1
    && ShowsHold(t, task, row)
    && ShowsRun(t, task, row)
    && ShowsArtifacts(t, task.id, row)
    && row.artifactCount == Total(RunsFor(t, task.id), ArtifactsIn(t))
    && Complains(t, task, row)
  }

  /** What the row of a hold that no task is linked to says. */
  ghost predicate OrphanSays(t: Tables, h: Hold, row: ActualRow) {
    && CurrentHold(t, h) && (forall task :: CurrentTask(t, task) ==> h.id !in HoldsOf(t, task))
    && row == ActualRow(HoldRow(h.id), Some(h.id), None, None, SomeHold(h.status), NoRun, Some(NoArtifacts),
                        0, 1, 0, 0, None)
  }

  /** What the row of an artifact that belongs to no task says. */
  ghost predicate StraySays(t: Tables, i: nat, row: ActualRow)
    requires i < |t.artifacts|
  {
    var a := t.artifacts[i];
    && row.id == ArtifactRow(a.id, i) && row.runId == a.runId
    && row.holdId == None && row.task == None && row.hold == HoldCell.NoHold && row.run == NoRun
    && row.artifacts == None && row.holdCount == 0 && row.artifactCount == 1
    && row.taskCount == (if exists task :: task in t.tasks && Some(task.id) == a.taskId then 1 else 0)
    && row.runCount == (if exists r :: r in t.runs && Some(r.id) == a.runId then 1 else 0)
    && row.error.Some? && Astray(t, a, row.error.value)
  }

  // ---------------------------------------------------------------- looking rows up

  lemma TaskLookup(t: Tables, task: Task)
    ensures CurrentTask(t, task) <==> task.id in Tasks(t) && Tasks(t)[task.id] == task
  {
    LabFindings.IndexIsLast(t.tasks, TaskKey, task);
  }

  lemma HoldLookup(t: Tables, h: Hold)
    ensures CurrentHold(t, h) <==> h.id in Holds(t) && Holds(t)[h.id] == h
  {
    LabFindings.IndexIsLast(t.holds, HoldKey, h);
  }

  lemma RunLookup(t: Tables, r: Run)
    ensures CurrentRun(t, r) <==> r.id in Runs(t) && Runs(t)[r.id] == r
  {
    LabFindings.IndexIsLast(t.runs, RunKey, r);
  }

  lemma TaskKnown(t: Tables, k: string)
    ensures k in Tasks(t) <==> exists task :: task in t.tasks && task.id == k
    ensures k in Tasks(t) ==> CurrentTask(t, Tasks(t)[k]) && Tasks(t)[k].id == k
  {
    if k in Tasks(t) {
      TaskLookup(t, Tasks(t)[k]);
    }
  }

  lemma HoldKnown(t: Tables, k: string)
    ensures k in Holds(t) <==> exists h :: h in t.holds && h.id == k
    ensures k in Holds(t) ==> CurrentHold(t, Holds(t)[k]) && Holds(t)[k].id == k
  {
    if k in Holds(t) {
      HoldLookup(t, Holds(t)[k]);
    }
  }

  lemma RunKnown(t: Tables, k: string)
    ensures k in Runs(t) <==> exists r :: r in t.runs && r.id == k
    ensures k in Runs(t) ==> CurrentRun(t, Runs(t)[k]) && Runs(t)[k].id == k
    ensures forall r :: CurrentRun(t, r) && r.id == k ==> k in Runs(t) && Runs(t)[k] == r
  {
    if k in Runs(t) {
      RunLookup(t, Runs(t)[k]);
    }
    forall r | CurrentRun(t, r) && r.id == k ensures k in Runs(t) && Runs(t)[k] == r {
      RunLookup(t, r);
    }
  }

  // ---------------------------------------------------------------- the hold of a task row

  lemma NamingIsReason(h: Hold, id: string)
    ensures HoldTask(h) == Some(id) <==> id != "" && h.reason == Some("lab_task:" + id)
  {
    HoldTaskIdRoundTrip(h.reason, id);
    assert LAB_TASK + id == "lab_task:" + id;
  }

  lemma MapMember<A(!new), B(!new)>(rows: seq<A>, f: A -> B, b: B)
    ensures b in Map(rows, f) <==> exists a :: a in rows && f(a) == b
  {
    if b in Map(rows, f) {
      var i :| 0 <= i < |rows| && Map(rows, f)[i] == b;
      assert rows[i] in rows;
    }
    if a :| a in rows && f(a) == b {
      var i :| 0 <= i < |rows| && rows[i] == a;
      assert Map(rows, f)[i] == b;
    }
  }

  lemma ReasonHolds(t: Tables, id: string, k: string)
    ensures k in Map(Group(t.holds, HoldTask, id), HoldKey)
       <==> exists h :: h in t.holds && h.id == k && id != "" && h.reason == Some("lab_task:" + id)
  {
    var mine := Group(t.holds, HoldTask, id);
    MapMember(mine, HoldKey, k);
    forall h ensures h in mine <==> h in t.holds && id != "" && h.reason == Some("lab_task:" + id) {
      WhereMember(t.holds, Labelled(HoldTask, Some(id)), h);
      NamingIsReason(h, id);
    }
  }

  lemma RelatedIsNamed(t: Tables, task: Task, k: string)
    ensures k in RelatedHolds(t, task) <==> k in HoldsOf(t, task)
  {
    ReasonHolds(t, task.id, k);
    HoldKnown(t, k);
    hide Map, Group, Holds, CurrentHold;
  }

  lemma RelatedCount(t: Tables, task: Task)
    ensures |RelatedHolds(t, task)| == |HoldsOf(t, task)|
    ensures forall k :: k in RelatedHolds(t, task) <==> k in HoldsOf(t, task)
  {
    var ids := RelatedHolds(t, task);
    forall k ensures k in ids <==> k in HoldsOf(t, task) {
      RelatedIsNamed(t, task, k);
    }
    RelatedOnce(t, task);
    SetSize(ids);
    hide RelatedHolds, HoldsOf;
    assert (set k | k in ids) == HoldsOf(t, task);
  }

  lemma RelatedOnce(t: Tables, task: Task)
    ensures NoRepeats(RelatedHolds(t, task))
  {
    var own := if task.holdId.Some? && task.holdId.value != "" && task.holdId.value in Holds(t)
               then [task.holdId.value] else [];
    DistinctUnique(own + Map(Group(t.holds, HoldTask, task.id), HoldKey));
  }

  lemma {:induction false} LeastIsFirst(ids: seq<string>, k: string)
    requires k in ids
    ensures !Precedes(k, Least(ids))
  {
    PrecedesOneWay(k, k);
    if |ids| > 1 {
      var rest := Least(ids[1..]);
      assert k == ids[0] || k in ids[1..];
      PrecedesOneWay(rest, ids[0]);
      if k in ids[1..] {
        LeastIsFirst(ids[1..], k);
        if Precedes(k, ids[0]) && !Precedes(rest, ids[0]) {
          PrecedesOneWay(k, rest);
          if rest != ids[0] {
            PrecedesChain(k, ids[0], rest);
          }
        }
      }
    }
  }

  lemma HoldShown(t: Tables, task: Task)
    requires task.id in Tasks(t) && Tasks(t)[task.id] == task
    ensures ShowsHold(t, task, RowOfTask(t, task.id, task))
  {
    hide SettledRun, RunsOfTask, ArtifactsOfTask, CanonicalArtifactState, RowProblem, Runs, Tasks;
    var ids := RelatedHolds(t, task);
    RelatedCount(t, task);
    if ids != [] {
      var k := Least(ids);
      assert k in HoldsOf(t, task);
      HoldKnown(t, k);
      forall other | other in HoldsOf(t, task) ensures !Precedes(other, k) {
        LeastIsFirst(ids, other);
      }
    }
    hide RelatedHolds, HoldsOf, Holds, CurrentHold, Least, Precedes;
  }

  // ---------------------------------------------------------------- the run of a task row

  lemma RunsAre(t: Tables, id: string)
    ensures RunsOfTask(t, id) == RunsFor(t, id)
  {
    var mine, same := Labelled(RunTask, Some(id)), (r: Run) => r.taskId == Some(id) && id != "";
    forall r ensures mine(r) == same(r) {
      assert RunTask(r) == Some(id) <==> r.taskId == Some(id) && id != "";
    }
    WhereSame(t.runs, mine, same);
  }

  lemma AcceptedIs(t: Tables, task: Task, related: seq<Run>)
    requires task.acceptedRun.Some? && task.acceptedRun != Some("")
    ensures SettledRun(Runs(t), task, related).None? <==> forall r :: !IsAccepted(t, task, r)
    ensures SettledRun(Runs(t), task, related).Some? ==>
              IsAccepted(t, task, SettledRun(Runs(t), task, related).value)
  {
    var k := task.acceptedRun.value;
    RunKnown(t, k);
    hide Runs, CurrentRun;
    if k in Runs(t) && Runs(t)[k].taskId == Some(task.id) {
      assert IsAccepted(t, task, Runs(t)[k]);
    }
  }

  lemma RunIsShown(t: Tables, task: Task)
    requires task.id in Tasks(t) && Tasks(t)[task.id] == task
    ensures ShowsRun(t, task, RowOfTask(t, task.id, task))
  {
    hide RelatedHolds, ArtifactsOfTask, CanonicalArtifactState, RowProblem, Tasks, Holds, Least;
    RunsAre(t, task.id);
    if task.acceptedRun.Some? && task.acceptedRun != Some("") {
      AcceptedIs(t, task, RunsOfTask(t, task.id));
      hide SettledRun, IsAccepted, RunsOfTask, RunsFor;
    }
    hide IsAccepted, RunsOfTask, RunsFor;
  }

  // ---------------------------------------------------------------- the artifacts of a task row

  lemma NoTaskProblem(t: Tables, a: Artifact)
    requires a.taskId == None || a.taskId == Some("") || a.taskId.value !in Tasks(t)
    ensures var problem := ArtifactProblem(Tasks(t), Runs(t), a);
            problem.Some? && !Placed(t, a) && Astray(t, a, problem.value)
  {
    if a.taskId.Some? {
      TaskKnown(t, a.taskId.value);
    }
    hide Tasks, Runs, CurrentTask, CurrentRun;
  }

  lemma RunProblem(t: Tables, a: Artifact)
    requires a.taskId.Some? && a.taskId != Some("") && a.taskId.value in Tasks(t)
    ensures var problem := ArtifactProblem(Tasks(t), Runs(t), a);
            if problem.Some? then !Placed(t, a) && Astray(t, a, problem.value) else Placed(t, a)
  {
    TaskKnown(t, a.taskId.value);
    hide Tasks, CurrentTask;
    if a.runId.Some? {
      RunKnown(t, a.runId.value);
    }
    hide Runs, CurrentRun;
    if a.runId.Some? && a.runId != Some("") && a.runId.value in Runs(t) {
      var r := Runs(t)[a.runId.value];
      assert CurrentRun(t, r) && Some(r.id) == a.runId;
    }
  }

  lemma ProblemIs(t: Tables, a: Artifact)
    ensures ArtifactProblem(Tasks(t), Runs(t), a).None? <==> Placed(t, a)
    ensures ArtifactProblem(Tasks(t), Runs(t), a).Some? ==>
              Astray(t, a, ArtifactProblem(Tasks(t), Runs(t), a).value)
  {
    hide Tasks, Runs, Placed, Astray;
    if a.taskId == None || a.taskId == Some("") || a.taskId.value !in Tasks(t) {
      NoTaskProblem(t, a);
    } else {
      RunProblem(t, a);
    }
  }

  lemma OfRunAre(t: Tables, r: Run)
    ensures ArtifactsOfRun(AttributedArtifacts(t))(r)
         == Where(t.artifacts, (a: Artifact) => Placed(t, a) && a.runId == Some(r.id))
  {
    var both := (a: Artifact) => Placed(t, a) && a.runId == Some(r.id);
    forall a ensures Attributable(t)(a) <==> Placed(t, a) {
      ProblemIs(t, a);
    }
    hide Placed, Attributable;
    WhereBoth(t.artifacts, Attributable(t), Labelled(ArtifactRun, Some(r.id)), both);
  }

  lemma {:induction false} WhereBoth<A(!new)>(rows: seq<A>, p: A -> bool, q: A -> bool, both: A -> bool)
    requires forall a :: both(a) == (p(a) && q(a))
    ensures Where(Where(rows, p), q) == Where(rows, both)
  {
    if rows != [] {
      var front, last := rows[..|rows| - 1], rows[|rows| - 1];
      WhereBoth(front, p, q, both);
      assert p(last) ==> (Where(front, p) + [last])[..|Where(front, p)|] == Where(front, p);
    }
  }

  lemma ArtifactsAre(t: Tables, id: string, a: Artifact)
    ensures a in ArtifactsOfTask(t, id) <==> Belongs(t, id, a)
  {
    RunsAre(t, id);
    ConcatMember(RunsOfTask(t, id), ArtifactsOfRun(AttributedArtifacts(t)), a);
    forall r ensures a in ArtifactsOfRun(AttributedArtifacts(t))(r)
                <==> a in t.artifacts && Placed(t, a) && a.runId == Some(r.id)
    {
      OfRunAre(t, r);
      WhereMember(t.artifacts, (a: Artifact) => Placed(t, a) && a.runId == Some(r.id), a);
    }
    hide ArtifactsOfRun, RunsOfTask, RunsFor, Placed;
  }

  lemma ArtifactsCounted(t: Tables, id: string)
    ensures |ArtifactsOfTask(t, id)| == Total(RunsFor(t, id), ArtifactsIn(t))
  {
    RunsAre(t, id);
    forall r ensures ArtifactsIn(t)(r) == |ArtifactsOfRun(AttributedArtifacts(t))(r)| {
      OfRunAre(t, r);
    }
    hide ArtifactsOfRun, ArtifactsIn, RunsOfTask;
    ConcatLength(RunsFor(t, id), ArtifactsOfRun(AttributedArtifacts(t)), ArtifactsIn(t));
  }

  lemma BucketMeans(a: Artifact)
    ensures forall state :: Counts(a, state) <==> state == ArtifactBucket(a)
    ensures Readable(a) <==> KnownStatusPair(a)
  {
  }

  lemma StateIs(artifacts: seq<Artifact>)
    ensures var state := CanonicalArtifactState(artifacts);
            if exists a :: a in artifacts && !Readable(a) then state == Bad(UnknownArtifactStatus)
            else if artifacts == [] then state == State(NoArtifacts)
            else if exists a, b :: a in artifacts && b in artifacts && Differ(a, b)
            then state == Bad(AmbiguousArtifactStates)
            else state.State? && forall a :: a in artifacts ==> Counts(a, state.state)
  {
    forall a ensures Readable(a) <==> KnownStatusPair(a) {
      BucketMeans(a);
    }
    forall a, b ensures Differ(a, b) <==> ArtifactBucket(a) != ArtifactBucket(b) {
      BucketMeans(a);
      BucketMeans(b);
      assert Counts(a, ArtifactBucket(a));
    }
    forall a ensures Counts(a, ArtifactBucket(a)) {
      BucketMeans(a);
    }
    hide Readable, KnownStatusPair, Differ, ArtifactBucket, Counts;
  }

  /** The state of a task's artifacts, in terms of the tables. */
  lemma StateShown(t: Tables, task: Task)
    requires task.id in Tasks(t) && Tasks(t)[task.id] == task
    ensures ShowsArtifacts(t, task.id, RowOfTask(t, task.id, task))
  {
    hide RelatedHolds, RowProblem, Tasks, Holds, Least, SettledRun, RunsOfTask, CanonicalArtifactState, ArtifactsOfTask;
    hide Readable, Counts, Differ;
    var artifacts := ArtifactsOfTask(t, task.id);
    forall a ensures a in artifacts <==> Belongs(t, task.id, a) {
      ArtifactsAre(t, task.id, a);
    }
    StateIs(artifacts);
    hide Belongs;
    if artifacts != [] {
      assert artifacts[0] in artifacts;
      NotNone(artifacts[0]);
    }
  }

  lemma NotNone(a: Artifact)
    ensures !Counts(a, NoArtifacts)
  {
  }

  lemma ComplaintShown(t: Tables, task: Task)
    requires task.id in Tasks(t) && Tasks(t)[task.id] == task
    ensures Complains(t, task, RowOfTask(t, task.id, task))
  {
    hide RelatedHolds, Tasks, Holds, Least, SettledRun, RunsOfTask, CanonicalArtifactState, ArtifactsOfTask;
    hide Readable, Counts, Differ;
    var artifacts := ArtifactsOfTask(t, task.id);
    forall a ensures a in artifacts <==> Belongs(t, task.id, a) {
      ArtifactsAre(t, task.id, a);
    }
    StateIs(artifacts);
    hide Belongs;
  }

  lemma TaskRowSays(t: Tables, task: Task)
    requires task.id in Tasks(t) && Tasks(t)[task.id] == task
    ensures RowSays(t, task, RowOfTask(t, task.id, task))
  {
    HoldShown(t, task);
    RunIsShown(t, task);
    StateShown(t, task);
    ComplaintShown(t, task);
    ArtifactsCounted(t, task.id);
    hide RelatedHolds, Tasks, Holds, Least, SettledRun, RunsOfTask, CanonicalArtifactState, ArtifactsOfTask, RowProblem;
    hide ShowsHold, ShowsRun, ShowsArtifacts, Complains, ArtifactsIn;
  }

  // ---------------------------------------------------------------- every row of the report

  lemma TaskRowsSay(t: Tables, row: ActualRow)
    ensures row in TaskRows(t) ==> exists task :: CurrentTask(t, task) && RowSays(t, task, row)
  {
    ConcatMember(TaskIds(t), TaskRowRule(t), row);
    if row in TaskRows(t) {
      var id :| id in TaskIds(t) && row in TaskRowRule(t)(id);
      TaskIdKnown(t, id);
      TaskKnown(t, id);
      TaskRowSays(t, Tasks(t)[id]);
    }
  }

  lemma TaskHasRow(t: Tables, task: Task)
    requires CurrentTask(t, task)
    ensures exists row :: row in TaskRows(t) && RowSays(t, task, row)
  {
    TaskLookup(t, task);
    TaskIdKnown(t, task.id);
    TaskRowSays(t, task);
    var row := RowOfTask(t, task.id, task);
    assert row in TaskRowRule(t)(task.id);
    hide Tasks, RowSays, RowOfTask;
    ConcatMember(TaskIds(t), TaskRowRule(t), row);
  }

  lemma LinkedIs(t: Tables, k: string)
    ensures k in LinkedHoldIds(t) <==> exists task :: CurrentTask(t, task) && k in HoldsOf(t, task)
  {
    ConcatMember(TaskIds(t), LinkedRule(t), k);
    hide RelatedHolds, HoldsOf, CurrentTask, TaskIds;
    if k in LinkedHoldIds(t) {
      var id :| id in TaskIds(t) && k in LinkedRule(t)(id);
      TaskIdKnown(t, id);
      TaskKnown(t, id);
      RelatedIsNamed(t, Tasks(t)[id], k);
    }
    if task :| CurrentTask(t, task) && k in HoldsOf(t, task) {
      TaskLookup(t, task);
      TaskIdKnown(t, task.id);
      RelatedIsNamed(t, task, k);
      assert k in LinkedRule(t)(task.id);
    }
  }

  /** The rows of orphan holds are those of the holds no task is linked to. */
  lemma OrphanRowsSay(t: Tables, row: ActualRow)
    ensures row in OrphanRows(t) <==> exists h :: OrphanSays(t, h, row)
  {
    ConcatMember(HoldIdList(t), OrphanRule(t), row);
    hide HoldsOf, CurrentTask, HoldIdList;
    if row in OrphanRows(t) {
      var k :| k in HoldIdList(t) && row in OrphanRule(t)(k);
      HoldIdListed(t, k);
      HoldKnown(t, k);
      LinkedIs(t, k);
      hide LinkedHoldIds, Holds, CurrentHold;
      assert OrphanSays(t, Holds(t)[k], row);
    }
    if h :| OrphanSays(t, h, row) {
      HoldLookup(t, h);
      HoldIdListed(t, h.id);
      LinkedIs(t, h.id);
      hide LinkedHoldIds, Holds, CurrentHold;
      assert row in OrphanRule(t)(h.id);
    }
  }

  lemma NamesKnownRows(t: Tables, a: Artifact)
    ensures (a.taskId.Some? && a.taskId.value in Tasks(t))
       <==> exists task :: task in t.tasks && Some(task.id) == a.taskId
    ensures (a.runId.Some? && a.runId.value in Runs(t)) <==> exists r :: r in t.runs && Some(r.id) == a.runId
  {
    if a.taskId.Some? {
      TaskKnown(t, a.taskId.value);
    }
    if a.runId.Some? {
      RunKnown(t, a.runId.value);
    }
    hide Tasks, Runs, CurrentTask, CurrentRun;
  }

  lemma StrayRowSays(t: Tables, i: nat, problem: Problem)
    requires i < |t.artifacts| && ArtifactProblem(Tasks(t), Runs(t), t.artifacts[i]) == Some(problem)
    ensures StraySays(t, i, StrayRow(Tasks(t), Runs(t), i, t.artifacts[i], problem))
  {
    ProblemIs(t, t.artifacts[i]);
    NamesKnownRows(t, t.artifacts[i]);
    hide Tasks, Runs, ArtifactProblem, Astray;
  }

  /** The rows of the strays among the first `n` artifacts: one for each that is not placed. */
  ghost predicate StraysShown(t: Tables, rows: seq<ActualRow>, n: nat)
    requires n <= |t.artifacts|
  {
    && (forall row :: row in rows ==> exists i :: 0 <= i < n && !Placed(t, t.artifacts[i]) && StraySays(t, i, row))
    && (forall i :: 0 <= i < n && !Placed(t, t.artifacts[i]) ==> exists row :: row in rows && StraySays(t, i, row))
  }

  lemma OneMoreStray(t: Tables, before: seq<ActualRow>, after: seq<ActualRow>, n: nat)
    requires n < |t.artifacts| && StraysShown(t, before, n)
    requires if Placed(t, t.artifacts[n]) then after == before
             else exists row :: after == before + [row] && StraySays(t, n, row)
    ensures StraysShown(t, after, n + 1)
  {
    hide Placed, StraySays;
    if !Placed(t, t.artifacts[n]) {
      var row :| after == before + [row] && StraySays(t, n, row);
      assert after[|before|] == row && forall other :: other in before ==> other in after;
    }
  }

  lemma {:induction false} StraysSay(t: Tables, n: nat)
    requires n <= |t.artifacts|
    ensures StraysShown(t, StrayRows(Tasks(t), Runs(t), t.artifacts[..n]), n)
  {
    if n > 0 {
      var a, before := t.artifacts[n - 1], StrayRows(Tasks(t), Runs(t), t.artifacts[..n - 1]);
      StraysSay(t, n - 1);
      ProblemIs(t, a);
      assert t.artifacts[..n][..n - 1] == t.artifacts[..n - 1] && t.artifacts[..n][n - 1] == a;
      var problem := ArtifactProblem(Tasks(t), Runs(t), a);
      if problem.Some? {
        StrayRowSays(t, n - 1, problem.value);
      }
      hide Tasks, Runs, ArtifactProblem, Placed, StraySays, StrayRow, StraysShown;
      OneMoreStray(t, before, StrayRows(Tasks(t), Runs(t), t.artifacts[..n]), n - 1);
    }
  }

  /** Every row says what the tables say of a task, of a hold that no task is linked to, or of an
      artifact that belongs to no task. */
  ghost predicate Justified(t: Tables, rows: seq<ActualRow>) {
    forall row :: row in rows ==>
      || (exists task :: CurrentTask(t, task) && RowSays(t, task, row))
      || (exists h :: OrphanSays(t, h, row))
      || (exists i: nat :: i < |t.artifacts| && !Placed(t, t.artifacts[i]) && StraySays(t, i, row))
  }

  /** Each task, each such hold and each such artifact has its row. */
  ghost predicate Complete(t: Tables, rows: seq<ActualRow>) {
    && (forall task :: CurrentTask(t, task) ==> exists row :: row in rows && RowSays(t, task, row))
    && (forall h, row :: OrphanSays(t, h, row) ==> row in rows)
    && (forall i: nat :: i < |t.artifacts| && !Placed(t, t.artifacts[i]) ==>
          exists row :: row in rows && StraySays(t, i, row))
  }

  lemma RowsJustified(t: Tables, a: seq<ActualRow>, b: seq<ActualRow>, c: seq<ActualRow>)
    requires forall row :: row in a ==> exists task :: CurrentTask(t, task) && RowSays(t, task, row)
    requires forall row :: row in b <==> exists h :: OrphanSays(t, h, row)
    requires StraysShown(t, c, |t.artifacts|)
    ensures Justified(t, a + b + c)
  {
    hide CurrentTask, RowSays, OrphanSays, Placed, StraySays;
  }

  lemma RowsComplete(t: Tables, a: seq<ActualRow>, b: seq<ActualRow>, c: seq<ActualRow>)
    requires forall task :: CurrentTask(t, task) ==> exists row :: row in a && RowSays(t, task, row)
    requires forall row :: row in b <==> exists h :: OrphanSays(t, h, row)
    requires StraysShown(t, c, |t.artifacts|)
    ensures Complete(t, a + b + c)
  {
    hide CurrentTask, RowSays, OrphanSays, Placed, StraySays;
    assert forall row :: row in a || row in b || row in c ==> row in a + b + c;
  }

  /** The report says what the tables say, and leaves nothing out. */
  lemma ReportIsFaithful(t: Tables)
    ensures Justified(t, ActualRows(t)) && Complete(t, ActualRows(t))
  {
    hide CurrentTask, RowSays, OrphanSays, Placed, StraySays, TaskRows, OrphanRows, StrayRows, Tasks, Runs;
    hide Justified, Complete, StraysShown;
    var strays := StrayRows(Tasks(t), Runs(t), t.artifacts);
    forall row ensures row in TaskRows(t) ==> exists task :: CurrentTask(t, task) && RowSays(t, task, row) {
      TaskRowsSay(t, row);
    }
    forall task | CurrentTask(t, task) ensures exists row :: row in TaskRows(t) && RowSays(t, task, row) {
      TaskHasRow(t, task);
    }
    forall row ensures row in OrphanRows(t) <==> exists h :: OrphanSays(t, h, row) {
      OrphanRowsSay(t, row);
    }
    StraysSay(t, |t.artifacts|);
    TakeAll(t.artifacts);
    RowsJustified(t, TaskRows(t), OrphanRows(t), strays);
    RowsComplete(t, TaskRows(t), OrphanRows(t), strays);
  }
}
