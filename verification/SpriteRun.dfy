/** The durable record of one resident-sprite run.

    A run is a manifest (its state, the stages checkpointed so far, the artifacts it has
    registered) next to a directory of immutable files.  This module models the operations of
    the artifact store on it: the strict state graph of `advance_stage`, provider claims, the
    two-step immutable write, and the explicit recovery transitions. */
module SpriteRun {
  import opened Bags

  datatype RunState =
    | Requested | AnchorReady | StripsReady | Processed | AutoQcPassed | CandidateReady
    | PhaserReviewed | HumanApproved | Publishing | Published | RolledBack
    | Failed | Interrupted | Quarantined | Retrying

  datatype Direction = Down | Left | Right | Up

  datatype Stage =
    | Strips | Postprocess | AutoQc | Candidate | PhaserReview | HumanApproval
    | PublishStart | Publish | Rollback | Failure | Interruption | Quarantine
    | Anchor | Strip(direction: Direction)

  datatype ProviderStage = AnchorImage | StripImage(direction: Direction)

  datatype Path =
    | Texture | Portrait | QcReport | PhaserEvidence | ApprovalEvidence | RejectionEvidence
    | PublicationRecord | OtherFile(name: string)

  /** File contents; canonical JSON documents are told apart by what they say. */
  datatype Content =
    | Bytes(data: seq<int>)
    | Qc(passed: bool, findings: nat)
    | Reviewed(reviewer: string, render: Option<Content>, at: int)
    | Approved(reviewer: string, checks: seq<bool>, at: int)
    | RejectedFor(reviewer: string, reason: string, at: int)
    | Publication(texture: Content, portrait: Content)

  datatype Error =
    | StageConflict | RunTerminal | StageClaimHeld | StageClaimRequired | ExplicitRetryRequired | ExplicitReviewRequired
    | TransitionInvalid | StripsMissing | ErrorMissing | ArtifactConflict | ArtifactMissing | StagePrecondition
    | ReviewStateInvalid | QcNotPassed | ApprovalInvalid | EvidenceConflict | PublishStateInvalid | TargetConflict
    | PublishedAssetInvalid | PublishFailed

  datatype Result<+T> = Ok(value: T) | Err(error: Error)

  datatype Run = Run(
    state: RunState, completed: set<Stage>, files: map<Path, Content>, registered: set<Path>,
    claim: Option<ProviderStage>, failed: bool, generateRight: bool)

  // ---------------------------------------------------------------- the state graph

  function Target(stage: Stage): Option<RunState> {
    match stage
    case Strips => Some(StripsReady)
    case Postprocess => Some(Processed)
    case AutoQc => Some(AutoQcPassed)
    case Candidate => Some(CandidateReady)
    case PhaserReview => Some(PhaserReviewed)
    case HumanApproval => Some(HumanApproved)
    case PublishStart => Some(Publishing)
    case Publish => Some(Published)
    case Rollback => Some(RolledBack)
    case Failure => Some(Failed)
    case Interruption => Some(Interrupted)
    case Quarantine => Some(Quarantined)
    case Anchor => None
    case Strip(_) => None
  }

  function Allowed(state: RunState): set<RunState> {
    match state
    case Requested => {Failed, Interrupted, Quarantined}
    case AnchorReady => {StripsReady, Failed, Interrupted, Quarantined}
    case StripsReady => {Processed, Failed, Interrupted, Quarantined}
    case Processed => {AutoQcPassed, Failed, Interrupted, Quarantined}
    case AutoQcPassed => {CandidateReady, Failed, Interrupted, Quarantined}
    case CandidateReady => {PhaserReviewed, Failed, Interrupted, Quarantined}
    case PhaserReviewed => {HumanApproved, Failed, Interrupted, Quarantined}
    case HumanApproved => {Publishing, Failed, Interrupted}
    case Publishing => {Published, RolledBack, Failed, Interrupted}
    case Retrying => {Failed, Interrupted}
    case Failed => {}
    case Interrupted => {}
    case Quarantined => {}
    case Published => {}
    case RolledBack => {}
  }

  predicate IsTerminal(state: RunState) { state == Published || state == RolledBack }

  function Directions(generateRight: bool): set<Direction> {
    if generateRight then {Down, Left, Up, Right} else {Down, Left, Up}
  }

  /** One checkpoint under the state graph; repeating the checkpoint just made is a no-op. */
  function AdvanceStage(run: Run, stage: Stage, error: bool): Result<Run> {
    var target := Target(stage);
    if target.None? then Err(StageClaimRequired)
    else if stage in run.completed then
      if run.state == target.value && run.failed == error then Ok(run) else Err(StageConflict)
    else if IsTerminal(run.state) then Err(RunTerminal)
    else if run.claim.Some? then Err(StageClaimHeld)
    else if run.state == Failed || run.state == Interrupted then Err(ExplicitRetryRequired)
    else if run.state == Quarantined then Err(ExplicitReviewRequired)
    else if target.value !in Allowed(run.state) then Err(TransitionInvalid)
    else if stage == Strips && exists d :: d in Directions(run.generateRight) && Strip(d) !in run.completed
    then Err(StripsMissing)
    else if stage == Failure && !error then Err(ErrorMissing)
    else Ok(run.(state := target.value, completed := run.completed + {stage}, failed := error))
  }

  // ---------------------------------------------------------------- provider claims

  function CompletedStage(p: ProviderStage): Stage {
    match p
    case AnchorImage => Anchor
    case StripImage(d) => Strip(d)
  }

  function ClaimStage(run: Run, p: ProviderStage): Result<Run> {
    if IsTerminal(run.state) then Err(RunTerminal)
    else if CompletedStage(p) in run.completed then Err(StageConflict)
    else if run.state == Failed || run.state == Interrupted then Err(ExplicitRetryRequired)
    else if run.state == Quarantined then Err(ExplicitReviewRequired)
    else if !(match p
              case AnchorImage => run.state in {Requested, Retrying}
              case StripImage(d) => d in Directions(run.generateRight) && Anchor in run.completed
                                    && run.state in {AnchorReady, Retrying})
    then Err(StagePrecondition)
    else if run.claim.Some? then Err(StageClaimHeld)
    else Ok(run.(claim := Some(p)))
  }

  function CompleteStage(run: Run): Result<Run> {
    if run.claim.None? then Err(StageClaimRequired)
    else Ok(run.(state := AnchorReady, completed := run.completed + {CompletedStage(run.claim.value)},
                 failed := false, claim := None))
  }

  function FailClaim(run: Run): Result<Run> {
    if IsTerminal(run.state) then Err(RunTerminal)
    else if run.claim.None? then Err(StageClaimRequired)
    else Ok(run.(state := Failed, failed := true, claim := None))
  }

  function ReleaseClaim(run: Run): Result<Run> {
    if run.claim.None? then Err(StageClaimRequired) else Ok(run.(claim := None))
  }

  /** `retry_run`: failed or interrupted runs may be tried again. */
  function RetryRun(run: Run): Result<Run> {
    if run.state !in {Failed, Interrupted} then Err(TransitionInvalid)
    else if run.claim.Some? then Err(StageClaimHeld)
    else Ok(run.(state := Retrying, failed := false))
  }

  /** `review_quarantined_run`: a quarantined run may be sent back to post-processing review. */
  function ReviewQuarantined(run: Run): Result<Run> {
    if run.state != Quarantined then Err(TransitionInvalid)
    else if run.claim.Some? then Err(StageClaimHeld)
    else Ok(run.(state := Processed, failed := false))
  }

  // ---------------------------------------------------------------- immutable files

  /** First half of a write: the file appears, or is already there with the same bytes. */
  function CreateFile(run: Run, path: Path, content: Content): Result<Run> {
    if IsTerminal(run.state) then Err(RunTerminal)
    else if path in run.files && run.files[path] != content then Err(ArtifactConflict)
    else Ok(run.(files := run.files[path := content]))
  }

  /** Second half: the manifest names the file. */
  function Register(run: Run, path: Path): Run {
    run.(registered := run.registered + {path})
  }

  function WriteArtifact(run: Run, path: Path, content: Content): Result<Run> {
    var created := CreateFile(run, path, content);
    if created.Err? then created else Ok(Register(created.value, path))
  }

  /** Only files the manifest names can be read back. */
  function ReadArtifact(run: Run, path: Path): Result<Content> {
    if path in run.registered && path in run.files then Ok(run.files[path]) else Err(ArtifactMissing)
  }

  predicate WellFormed(run: Run) { run.registered <= run.files.Keys }

  /** Writing a file a second time succeeds exactly when the bytes are the same. */
  lemma RewriteNeedsSameBytes(run: Run, path: Path, first: Content, second: Content)
    requires WriteArtifact(run, path, first).Ok?
    ensures WriteArtifact(WriteArtifact(run, path, first).value, path, second).Ok? <==> first == second
  {
  }

  // ---------------------------------------------------------------- what no operation does

  /** The states from automatic QC onwards. */
  predicate ReviewChain(state: RunState) {
    state in {AutoQcPassed, CandidateReady, PhaserReviewed, HumanApproved, Publishing, Published, RolledBack}
  }

  /** Automatic QC is behind the run and the run has left the chain that leads to publication. */
  predicate ShutOut(run: Run) {
    AutoQc in run.completed && !ReviewChain(run.state)
  }

  datatype StoreOp =
    | Advance(stage: Stage, error: bool)
    | Claim(provider: ProviderStage)
    | Complete
    | FailTheClaim
    | Release
    | Retry
    | ReviewAgain
    | Create(path: Path, content: Content)
    | Name(path: Path)

  function Apply(run: Run, op: StoreOp): Result<Run> {
    match op
    case Advance(stage, error) => AdvanceStage(run, stage, error)
    case Claim(p) => ClaimStage(run, p)
    case Complete => CompleteStage(run)
    case FailTheClaim => FailClaim(run)
    case Release => ReleaseClaim(run)
    case Retry => RetryRun(run)
    case ReviewAgain => ReviewQuarantined(run)
    case Create(path, content) => CreateFile(run, path, content)
    case Name(path) => if path in run.files then Ok(Register(run, path)) else Err(ArtifactMissing)
  }

  /** Runs the operations one after another; a refused operation changes nothing. */
  function ApplyAll(run: Run, ops: seq<StoreOp>): Run {
    if ops == [] then run
    else
      var before := ApplyAll(run, ops[..|ops| - 1]);
      var r := Apply(before, ops[|ops| - 1]);
      if r.Ok? then r.value else before
  }

  /** What holds of every run the store can produce: claims are only held early in a run, and
      a stage of the review chain is completed only after automatic QC. */
  ghost predicate Sound(run: Run) {
    && (run.claim.Some? ==> run.state in {Requested, Retrying, AnchorReady})
    && (run.completed * {Candidate, PhaserReview, HumanApproval, PublishStart, Publish, Rollback} != {} ==>
          AutoQc in run.completed)
    && (ReviewChain(run.state) ==> AutoQc in run.completed)
    && (Rollback in run.completed ==> run.state == RolledBack)
    && (Publish in run.completed ==> run.state == Published)
    && (PublishStart in run.completed ==> run.state !in {AutoQcPassed, CandidateReady, PhaserReviewed, HumanApproved})
  }

  lemma AdvanceSound(run: Run, stage: Stage, error: bool)
    requires Sound(run) && AdvanceStage(run, stage, error).Ok?
    ensures Sound(AdvanceStage(run, stage, error).value)
    ensures ShutOut(run) ==> ShutOut(AdvanceStage(run, stage, error).value)
  {
    var next := AdvanceStage(run, stage, error).value;
    var late := {Candidate, PhaserReview, HumanApproval, PublishStart, Publish, Rollback};
    if next != run {
      assert next.completed * late == run.completed * late + {stage} * late;
      assert Target(stage).value in Allowed(run.state);
      assert run.claim.None? && next.completed == run.completed + {stage};
      hide AdvanceStage;
    }
  }

  lemma ApplySound(run: Run, op: StoreOp)
    requires Sound(run) && Apply(run, op).Ok?
    ensures Sound(Apply(run, op).value)
    ensures ShutOut(run) ==> ShutOut(Apply(run, op).value)
    ensures IsTerminal(run.state) ==> Apply(run, op).value.state == run.state
  {
    if op.Advance? {
      AdvanceSound(run, op.stage, op.error);
      hide Sound;
    }
  }

  /** A run shut out after automatic QC is never published, whatever is called on it later,
      explicit retries and quarantine reviews included. */
  lemma {:induction false} ShutOutForever(run: Run, ops: seq<StoreOp>)
    requires Sound(run) && ShutOut(run)
    ensures Sound(ApplyAll(run, ops)) && ShutOut(ApplyAll(run, ops))
    ensures ApplyAll(run, ops).state != Published
  {
    if ops != [] {
      ShutOutForever(run, ops[..|ops| - 1]);
      var before := ApplyAll(run, ops[..|ops| - 1]);
      if Apply(before, ops[|ops| - 1]).Ok? {
        ApplySound(before, ops[|ops| - 1]);
      }
    }
  }

  /** A quarantined run can still be published exactly when it was quarantined before automatic
      QC; a human rejection always comes later, so what a reviewer rejects stays unpublished. */
  lemma QuarantineIsFinalIff(run: Run)
    requires Sound(run) && run.state == Quarantined
    ensures (forall ops :: ApplyAll(run, ops).state != Published) <==> AutoQc in run.completed
  {
    if AutoQc in run.completed {
      forall ops ensures ApplyAll(run, ops).state != Published {
        ShutOutForever(run, ops);
      }
    } else {
      var ops := SecondChance(run);
    }
  }

  /** Back through post-processing review, and then every checkpoint up to publication. */
  lemma SecondChance(run: Run) returns (ops: seq<StoreOp>)
    requires Sound(run) && run.state == Quarantined && AutoQc !in run.completed
    ensures ApplyAll(run, ops).state == Published
  {
    NotYetReviewed(run);
    assert ApplyAll(run, []) == run;
    hide Sound, ApplyAll, Apply, AdvanceStage;
    ops := [ReviewAgain];
    ops := ThenCheckpoint(run, ops, AutoQc, AutoQcPassed);
    ops := ThenCheckpoint(run, ops, Candidate, CandidateReady);
    ops := ThenCheckpoint(run, ops, PhaserReview, PhaserReviewed);
    ops := ThenPublish(run, ops);
  }

  lemma ThenPublish(run: Run, reviewed: seq<StoreOp>) returns (ops: seq<StoreOp>)
    requires ApplyAll(run, reviewed).state == PhaserReviewed && ApplyAll(run, reviewed).claim.None?
    requires ApplyAll(run, reviewed).completed !! {HumanApproval, PublishStart, Publish}
    ensures ApplyAll(run, ops).state == Published
  {
    hide ApplyAll, Apply, AdvanceStage;
    ops := ThenCheckpoint(run, reviewed, HumanApproval, HumanApproved);
    ops := ThenCheckpoint(run, ops, PublishStart, Publishing);
    ops := ThenCheckpoint(run, ops, Publish, Published);
  }

  lemma NotYetReviewed(run: Run)
    requires Sound(run) && run.state == Quarantined && AutoQc !in run.completed
    ensures run.claim.None?
    ensures Candidate !in run.completed && PhaserReview !in run.completed && HumanApproval !in run.completed
    ensures PublishStart !in run.completed && Publish !in run.completed
  {
    var late := run.completed * {Candidate, PhaserReview, HumanApproval, PublishStart, Publish, Rollback};
    assert late == {};
    assert Candidate !in late && PhaserReview !in late && HumanApproval !in late;
    assert PublishStart !in late && Publish !in late;
  }

  lemma ThenApply(run: Run, ops: seq<StoreOp>, op: StoreOp)
    requires Apply(ApplyAll(run, ops), op).Ok?
    ensures ApplyAll(run, ops + [op]) == Apply(ApplyAll(run, ops), op).value
  {
    assert (ops + [op])[..|ops + [op]| - 1] == ops;
  }

  lemma ThenCheckpoint(run: Run, ops: seq<StoreOp>, stage: Stage, state: RunState) returns (more: seq<StoreOp>)
    requires Target(stage) == Some(state) && stage !in {Strips, Failure}
    requires stage !in ApplyAll(run, ops).completed && ApplyAll(run, ops).claim.None?
    requires state in Allowed(ApplyAll(run, ops).state)
    ensures ApplyAll(run, more).state == state && ApplyAll(run, more).claim.None?
    ensures ApplyAll(run, more).completed == ApplyAll(run, ops).completed + {stage}
  {
    more := ops + [Advance(stage, false)];
    ThenApply(run, ops, Advance(stage, false));
  }
}
