/** The fail-closed classification of cutover rows.

    Every row is evaluated against every positive rule.  A row is converted or audited only
    when exactly one rule covers it; everything else is frozen and reported. */
module LabClassifier {
  import opened Bags
  import opened LabLedger
  import opened LabCohorts

  datatype Cohort = Cohort(task: TaskStatus, hold: HoldCell, run: RunCell, artifacts: ArtifactState)

  datatype CutoverAction =
    | AuditOnly | ConvertHold | FenceThenRefund | ConvertForReview | ConvertForArbitration | Freeze

  datatype Rule = Rule(id: string, action: CutoverAction, covers: Cohort -> bool)

  // ---------------------------------------------------------------- the positive rules

  predicate DraftReadOnly(c: Cohort) { c == Cohort(Draft, NoHold, NoRun, NoArtifacts) }

  predicate FundedHeld(c: Cohort) { c == Cohort(Funded, SomeHold(Held), NoRun, NoArtifacts) }

  predicate ActiveRun(c: Cohort) {
    c.task in {Assigned, Running} && c.hold == SomeHold(Held)
    && c.run in {SomeRun(RunQueued), SomeRun(RunActive), SomeRun(NeedsApproval)}
    && c.artifacts in {NoArtifacts, V1Candidate}
  }

  predicate ReviewEligible(c: Cohort) {
    c.task == Review && c.hold == SomeHold(Held) && c.run == SomeRun(Succeeded)
    && c.artifacts in {V1Candidate, V1Verified}
  }

  predicate RejectedArbitration(c: Cohort) {
    c.task == Rejected && c.hold == SomeHold(Held) && c.run == SomeRun(Succeeded)
    && c.artifacts in {V1Candidate, V1Verified, V1RejectedOrQuarantined}
  }

  predicate CompletedAudit(c: Cohort) {
    c == Cohort(Completed, SomeHold(Settled), SomeRun(Succeeded), V1Verified)
  }

  predicate RefundedAudit(c: Cohort) {
    c.task in {Failed, Expired, Cancelled} && c.hold == SomeHold(Refunded)
    && c.run in {NoRun, SomeRun(RunFailed), SomeRun(RunCancelled)}
    && c.artifacts in {NoArtifacts, V1RejectedOrQuarantined}
  }

  const POSITIVE_RULES: seq<Rule> := [
    Rule("cohort.v1-draft-read-only.v1", AuditOnly, DraftReadOnly),
    Rule("cohort.funded-held-convert.v1", ConvertHold, FundedHeld),
    Rule("cohort.active-run-fence.v1", FenceThenRefund, ActiveRun),
    Rule("cohort.review-eligible.v1", ConvertForReview, ReviewEligible),
    Rule("cohort.rejected-arbitration.v1", ConvertForArbitration, RejectedArbitration),
    Rule("cohort.completed-v1-audit.v1", AuditOnly, CompletedAudit),
    Rule("cohort.refunded-v1-audit.v1", AuditOnly, RefundedAudit)]

  // ---------------------------------------------------------------- classification

  predicate KnownCohort(c: Cohort) {
    && !c.task.UnknownTaskStatus?
    && !(c.hold.SomeHold? && c.hold.status.UnknownHoldStatus?)
    && !(c.run.SomeRun? && c.run.status.UnknownRunStatus?)
  }

  datatype Verdict = Decided(rule: string, action: CutoverAction) | Unmatched | Refused(problem: Problem)

  function Covering(rules: seq<Rule>, c: Cohort): seq<nat> {
    if rules == [] then []
    else
      var rest := Covering(rules[..|rules| - 1], c);
      if rules[|rules| - 1].covers(c) then rest + [|rules| - 1] else rest
  }

  lemma {:induction false} CoveringMeans(rules: seq<Rule>, c: Cohort)
    ensures forall i :: i in Covering(rules, c) <==> 0 <= i < |rules| && rules[i].covers(c)
    ensures forall p, q :: 0 <= p < q < |Covering(rules, c)| ==> Covering(rules, c)[p] < Covering(rules, c)[q]
  {
    if rules != [] {
      CoveringMeans(rules[..|rules| - 1], c);
      var rest := Covering(rules[..|rules| - 1], c);
      forall q | 0 <= q < |rest| ensures rest[q] < |rules| - 1 {
        assert rest[q] in rest;
      }
    }
  }

  function ClassifyCohort(c: Cohort, rules: seq<Rule>): Verdict {
    var matches := Covering(rules, c);
    if !KnownCohort(c) then Refused(UnknownStatus)
    else if |matches| > 1 then Refused(OverlappingRules)
    else if matches == [] then Unmatched
    else
      CoveringMeans(rules, c);
      assert matches[0] in matches;
      Decided(rules[matches[0]].id, rules[matches[0]].action)
  }

  /** One task; a hold, a run and an artifact exactly when the row says there is one. */
  predicate LinksValid(r: ActualRow) {
    && r.taskCount == 1
    && r.holdCount == (if r.hold.NoHold? then 0 else 1)
    && r.runCount == (if r.run.NoRun? then 0 else 1)
    && r.artifactCount == (if r.artifacts == Some(NoArtifacts) then 0 else 1)
  }

  datatype Mapped = Mapped(id: RowId, cohort: Option<Cohort>, rule: string, action: CutoverAction,
                           error: Option<Problem>)

  function Invalid(r: ActualRow, problem: Problem): Mapped {
    Mapped(r.id, None, "cohort.freeze-invalid-raw.v1", Freeze, Some(problem))
  }

  function MapRow(r: ActualRow, rules: seq<Rule>): Mapped {
    if r.error.Some? then Invalid(r, r.error.value)
    else if !LinksValid(r) then Invalid(r, AmbiguousLinks)
    else if r.task.None? then Invalid(r, MissingTaskStatus)
    else if r.artifacts.None? then Invalid(r, MissingArtifactState)
    else
      var c := Cohort(r.task.value, r.hold, r.run, r.artifacts.value);
      match ClassifyCohort(c, rules)
      case Refused(problem) => Invalid(r, problem)
      case Unmatched => Mapped(r.id, Some(c), "cohort.freeze-unclassified.v1", Freeze, Some(Unresolved))
      case Decided(rule, action) => Mapped(r.id, Some(c), rule, action, None)
  }

  datatype Report = Report(id: RowId, error: Problem, raw: ActualRow)

  function ReportOf(rules: seq<Rule>): ActualRow -> seq<Report> {
    (r: ActualRow) =>
      if MapRow(r, rules).error.Some? then [Report(r.id, MapRow(r, rules).error.value, r)] else []
  }

  method MapActualRows(rows: seq<ActualRow>, rules: seq<Rule>) returns (mapped: seq<Mapped>, anomalies: seq<Report>)
    ensures |mapped| == |rows| && forall i :: 0 <= i < |rows| ==> mapped[i] == MapRow(rows[i], rules)
    ensures rules == POSITIVE_RULES ==> forall i :: 0 <= i < |rows| ==> DecidedAs(rows[i], mapped[i])
    ensures anomalies == Concat(rows, ReportOf(rules))
  {
    mapped, anomalies := [], [];
    for i := 0 to |rows|
      invariant |mapped| == i && forall j :: 0 <= j < i ==> mapped[j] == MapRow(rows[j], rules)
      invariant anomalies == Concat(rows[..i], ReportOf(rules))
    {
      ConcatOneMore(rows, i, ReportOf(rules));
      var out := ClassifyRow(rows[i], rules);
      mapped := mapped + [out];
      if out.error.Some? {
        anomalies := anomalies + [Report(rows[i].id, out.error.value, rows[i])];
      }
    }
    TakeAll(rows);
    forall i | rules == POSITIVE_RULES && 0 <= i < |rows| ensures DecidedAs(rows[i], mapped[i]) {
      RowDecision(rows[i]);
    }
  }

  method ClassifyRow(r: ActualRow, rules: seq<Rule>) returns (out: Mapped)
    ensures out == MapRow(r, rules)
  {
    if r.error.Some? {
      return Invalid(r, r.error.value);
    }
    if !LinksValid(r) {
      return Invalid(r, AmbiguousLinks);
    }
    if r.task.None? {
      return Invalid(r, MissingTaskStatus);
    }
    if r.artifacts.None? {
      return Invalid(r, MissingArtifactState);
    }
    var c := Cohort(r.task.value, r.hold, r.run, r.artifacts.value);
    var verdict := ClassifyCohort(c, rules);
    match verdict
    case Refused(problem) =>
      return Invalid(r, problem);
    case Unmatched =>
      return Mapped(r.id, Some(c), "cohort.freeze-unclassified.v1", Freeze, Some(Unresolved));
    case Decided(rule, action) =>
      return Mapped(r.id, Some(c), rule, action, None);
  }

  // ---------------------------------------------------------------- the decision, column by column

  /** No complaint, one task, and at most one hold, run and artifact, just as the row says. */
  ghost predicate Unambiguous(r: ActualRow) {
    && r.error == None && r.taskCount == 1
    && (r.hold == NoHold ==> r.holdCount == 0) && (r.hold != NoHold ==> r.holdCount == 1)
    && (r.run == NoRun ==> r.runCount == 0) && (r.run != NoRun ==> r.runCount == 1)
    && (r.artifacts == Some(NoArtifacts) ==> r.artifactCount == 0)
    && (r.artifacts != Some(NoArtifacts) ==> r.artifactCount == 1)
  }

  ghost predicate StatusesKnown(r: ActualRow) {
    && (forall text :: r.task != Some(UnknownTaskStatus(text)))
    && (forall text :: r.hold != SomeHold(UnknownHoldStatus(text)))
    && (forall text :: r.run != SomeRun(UnknownRunStatus(text)))
  }

  /** What becomes of a row, told from its columns. */
  ghost predicate DecidedAs(r: ActualRow, m: Mapped) { m.id == r.id && ActionOf(r, m.action) && OutcomeOf(r, m) }

  ghost predicate ActionOf(r: ActualRow, action: CutoverAction) {
    var ok, held := Unambiguous(r), r.hold == SomeHold(Held);
    && (action == ConvertHold <==>
        ok && r.task == Some(Funded) && held && r.run == NoRun && r.artifacts == Some(NoArtifacts))
    && (action == FenceThenRefund <==>
        ok && r.task in {Some(Assigned), Some(Running)} && held
        && r.run in {SomeRun(RunQueued), SomeRun(RunActive), SomeRun(NeedsApproval)}
        && r.artifacts in {Some(NoArtifacts), Some(V1Candidate)})
    && (action == ConvertForReview <==>
        ok && r.task == Some(Review) && held && r.run == SomeRun(Succeeded)
        && r.artifacts in {Some(V1Candidate), Some(V1Verified)})
    && (action == ConvertForArbitration <==>
        ok && r.task == Some(Rejected) && held && r.run == SomeRun(Succeeded)
        && r.artifacts in {Some(V1Candidate), Some(V1Verified), Some(V1RejectedOrQuarantined)})
    && (action == AuditOnly <==> ok && (IsDraftRow(r) || IsCompletedRow(r) || IsRefundedRow(r)))
  }

  ghost predicate OutcomeOf(r: ActualRow, m: Mapped) {
    var ok, whole := Unambiguous(r), r.task.Some? && r.artifacts.Some?;
    && (m.action == Freeze <==> m.error.Some?)
    && m.rule == RuleName(r, m.action, m.error)
    && (r.error.Some? ==> m.error == r.error)
    && (r.error == None && !ok ==> m.error == Some(AmbiguousLinks))
    && (ok && r.task == None ==> m.error == Some(MissingTaskStatus))
    && (ok && r.task.Some? && r.artifacts == None ==> m.error == Some(MissingArtifactState))
    && (ok && whole && !StatusesKnown(r) ==> m.error == Some(UnknownStatus))
    && (ok && whole && StatusesKnown(r) ==> m.error in {None, Some(Unresolved)})
    && m.cohort == if ok && whole && StatusesKnown(r)
                   then Some(Cohort(r.task.value, r.hold, r.run, r.artifacts.value)) else None
  }

  ghost predicate IsDraftRow(r: ActualRow) {
    r.task == Some(Draft) && r.hold == NoHold && r.run == NoRun && r.artifacts == Some(NoArtifacts)
  }

  ghost predicate IsCompletedRow(r: ActualRow) {
    r.task == Some(Completed) && r.hold == SomeHold(Settled) && r.run == SomeRun(Succeeded)
    && r.artifacts == Some(V1Verified)
  }

  ghost predicate IsRefundedRow(r: ActualRow) {
    r.task in {Some(Failed), Some(Expired), Some(Cancelled)} && r.hold == SomeHold(Refunded)
    && r.run in {NoRun, SomeRun(RunFailed), SomeRun(RunCancelled)}
    && r.artifacts in {Some(NoArtifacts), Some(V1RejectedOrQuarantined)}
  }

  /** The rule a decision is reported under. */
  ghost function RuleName(r: ActualRow, action: CutoverAction, error: Option<Problem>): string {
    match action
    case ConvertHold => "cohort.funded-held-convert.v1"
    case FenceThenRefund => "cohort.active-run-fence.v1"
    case ConvertForReview => "cohort.review-eligible.v1"
    case ConvertForArbitration => "cohort.rejected-arbitration.v1"
    case AuditOnly =>
      if r.task == Some(Draft) then "cohort.v1-draft-read-only.v1"
      else if r.task == Some(Completed) then "cohort.completed-v1-audit.v1"
      else "cohort.refunded-v1-audit.v1"
    case Freeze =>
      if error == Some(Unresolved) && r.error == None then "cohort.freeze-unclassified.v1"
      else "cohort.freeze-invalid-raw.v1"
  }

  /** One rule covers the cohort, or none does. */
  lemma VerdictIs(c: Cohort, i: nat)
    requires KnownCohort(c)
    ensures i < |POSITIVE_RULES| && POSITIVE_RULES[i].covers(c) ==>
              ClassifyCohort(c, POSITIVE_RULES) == Decided(POSITIVE_RULES[i].id, POSITIVE_RULES[i].action)
    ensures (forall j :: 0 <= j < |POSITIVE_RULES| ==> !POSITIVE_RULES[j].covers(c)) ==>
              ClassifyCohort(c, POSITIVE_RULES) == Unmatched
  {
    CoveringMeans(POSITIVE_RULES, c);
    AtMostOneCovers(c);
    var matches := Covering(POSITIVE_RULES, c);
    if matches != [] {
      assert matches[0] in matches;
      if i < |POSITIVE_RULES| && POSITIVE_RULES[i].covers(c) {
        PositiveRulesDisjoint(c, i, matches[0]);
      }
    } else if i < |POSITIVE_RULES| {
      assert i !in matches;
    }
  }

  lemma SevenRules(c: Cohort)
    requires KnownCohort(c)
    ensures DraftReadOnly(c) ==> ClassifyCohort(c, POSITIVE_RULES) == Decided("cohort.v1-draft-read-only.v1", AuditOnly)
    ensures FundedHeld(c) ==> ClassifyCohort(c, POSITIVE_RULES) == Decided("cohort.funded-held-convert.v1", ConvertHold)
    ensures ActiveRun(c) ==> ClassifyCohort(c, POSITIVE_RULES) == Decided("cohort.active-run-fence.v1", FenceThenRefund)
    ensures ReviewEligible(c) ==>
              ClassifyCohort(c, POSITIVE_RULES) == Decided("cohort.review-eligible.v1", ConvertForReview)
    ensures RejectedArbitration(c) ==>
              ClassifyCohort(c, POSITIVE_RULES) == Decided("cohort.rejected-arbitration.v1", ConvertForArbitration)
    ensures CompletedAudit(c) ==>
              ClassifyCohort(c, POSITIVE_RULES) == Decided("cohort.completed-v1-audit.v1", AuditOnly)
    ensures RefundedAudit(c) ==>
              ClassifyCohort(c, POSITIVE_RULES) == Decided("cohort.refunded-v1-audit.v1", AuditOnly)
    ensures !DraftReadOnly(c) && !FundedHeld(c) && !ActiveRun(c) && !ReviewEligible(c) && !RejectedArbitration(c)
            && !CompletedAudit(c) && !RefundedAudit(c) ==>
              ClassifyCohort(c, POSITIVE_RULES) == Unmatched
  {
    hide ClassifyCohort, DraftReadOnly, FundedHeld, ActiveRun, ReviewEligible, RejectedArbitration, CompletedAudit;
    hide RefundedAudit;
    VerdictIs(c, 0);
    VerdictIs(c, 1);
    VerdictIs(c, 2);
    VerdictIs(c, 3);
    VerdictIs(c, 4);
    VerdictIs(c, 5);
    VerdictIs(c, 6);
  }

  /** The rules of the source, row by row: which states are converted, refunded, audited or frozen. */
  lemma RowDecision(r: ActualRow)
    ensures DecidedAs(r, MapRow(r, POSITIVE_RULES))
  {
    RowAction(r);
    RowOutcome(r);
    hide ClassifyCohort, ActionOf, OutcomeOf;
  }

  lemma RowAction(r: ActualRow)
    ensures ActionOf(r, MapRow(r, POSITIVE_RULES).action)
  {
    hide ClassifyCohort;
    if r.task.Some? && r.artifacts.Some? {
      var c := Cohort(r.task.value, r.hold, r.run, r.artifacts.value);
      if KnownCohort(c) {
        SevenRules(c);
      } else {
        UnknownRefused(c);
      }
    }
  }

  lemma UnknownRefused(c: Cohort)
    requires !KnownCohort(c)
    ensures ClassifyCohort(c, POSITIVE_RULES) == Refused(UnknownStatus)
  {
  }

  lemma RowOutcome(r: ActualRow)
    ensures OutcomeOf(r, MapRow(r, POSITIVE_RULES))
  {
    hide ClassifyCohort;
    if r.task.Some? && r.artifacts.Some? {
      var c := Cohort(r.task.value, r.hold, r.run, r.artifacts.value);
      if KnownCohort(c) {
        SevenRules(c);
        assert StatusesKnown(r);
      } else {
        UnknownRefused(c);
        assert !StatusesKnown(r);
      }
    }
  }

  // ---------------------------------------------------------------- what the mapping guarantees

  /** No two positive rules ever cover the same cohort. */
  lemma PositiveRulesDisjoint(c: Cohort, i: nat, j: nat)
    requires i < |POSITIVE_RULES| && j < |POSITIVE_RULES|
    requires POSITIVE_RULES[i].covers(c) && POSITIVE_RULES[j].covers(c)
    ensures i == j
  {
  }

  lemma AtMostOneCovers(c: Cohort)
    ensures |Covering(POSITIVE_RULES, c)| <= 1
  {
    var matches := Covering(POSITIVE_RULES, c);
    CoveringMeans(POSITIVE_RULES, c);
    if |matches| > 1 {
      assert matches[0] in matches && matches[1] in matches;
      PositiveRulesDisjoint(c, matches[0], matches[1]);
    }
  }

  /** A row is approved exactly when the collector had no complaint, its links are unambiguous,
      its statuses are known and one of the positive rules covers it; every other row is frozen. */
  lemma ApprovedIffCovered(r: ActualRow)
    ensures MapRow(r, POSITIVE_RULES).error.None?
       <==> r.error.None? && LinksValid(r) && r.task.Some? && r.artifacts.Some?
            && var c := Cohort(r.task.value, r.hold, r.run, r.artifacts.value);
               KnownCohort(c) && exists i :: 0 <= i < |POSITIVE_RULES| && POSITIVE_RULES[i].covers(c)
    ensures MapRow(r, POSITIVE_RULES).error.Some? <==> MapRow(r, POSITIVE_RULES).action == Freeze
  {
    if r.task.Some? && r.artifacts.Some? {
      var c := Cohort(r.task.value, r.hold, r.run, r.artifacts.value);
      CoveringMeans(POSITIVE_RULES, c);
      AtMostOneCovers(c);
      var matches := Covering(POSITIVE_RULES, c);
      if matches != [] {
        assert matches[0] in matches;
      }
    }
  }

  /** Exactly the frozen rows are reported, in row order. */
  lemma {:induction false} FrozenIsReported(rows: seq<ActualRow>)
    ensures |Concat(rows, ReportOf(POSITIVE_RULES))|
         == |Where(rows, (r: ActualRow) => MapRow(r, POSITIVE_RULES).action == Freeze)|
    ensures forall r :: r in rows ==>
              (MapRow(r, POSITIVE_RULES).action == Freeze
               <==> exists a :: a in Concat(rows, ReportOf(POSITIVE_RULES)) && a.raw == r)
  {
    if rows != [] {
      var front, last := rows[..|rows| - 1], rows[|rows| - 1];
      assert rows == front + [last];
      FrozenIsReported(front);
      ApprovedIffCovered(last);
      forall a | a in Concat(rows, ReportOf(POSITIVE_RULES)) ensures MapRow(a.raw, POSITIVE_RULES).action == Freeze {
        ReportedIsFrozen(rows, a);
      }
      if MapRow(last, POSITIVE_RULES).action == Freeze {
        var report := Report(last.id, MapRow(last, POSITIVE_RULES).error.value, last);
        assert report in Concat(rows, ReportOf(POSITIVE_RULES)) && report.raw == last;
      }
    }
  }

  lemma ReportedIsFrozen(rows: seq<ActualRow>, a: Report)
    requires a in Concat(rows, ReportOf(POSITIVE_RULES))
    ensures MapRow(a.raw, POSITIVE_RULES).action == Freeze
  {
    ConcatMember(rows, ReportOf(POSITIVE_RULES), a);
    ApprovedIffCovered(a.raw);
  }

  /** Only a task with exactly one hold, still held, is ever converted or refunded. */
  lemma OnlyHeldEscrowMoves(r: ActualRow)
    requires MapRow(r, POSITIVE_RULES).action
             in {ConvertHold, FenceThenRefund, ConvertForReview, ConvertForArbitration}
    ensures r.taskCount == 1 && r.holdCount == 1 && r.hold == SomeHold(Held)
    ensures r.task.Some? && !IsTerminalTask(r.task.value)
  {
    ApprovedIffCovered(r);
    var c := Cohort(r.task.value, r.hold, r.run, r.artifacts.value);
    var matches := Covering(POSITIVE_RULES, c);
    CoveringMeans(POSITIVE_RULES, c);
    assert matches[0] in matches;
  }
}
