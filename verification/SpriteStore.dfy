/** The artifact store's operations as a transition relation: which run each of them may turn
    into which, field by field, and what it answers when it may not. */
module SpriteStore {
  import opened Bags
  import opened SpriteRun

  // ---------------------------------------------------------------- checkpoints

  /** The stages that lead from one state to the next, stage by stage. */
  ghost predicate Leads(from: RunState, stage: Stage, to: RunState) {
    match stage
    case Strips => from == AnchorReady && to == StripsReady
    case Postprocess => from == StripsReady && to == Processed
    case AutoQc => from == Processed && to == AutoQcPassed
    case Candidate => from == AutoQcPassed && to == CandidateReady
    case PhaserReview => from == CandidateReady && to == PhaserReviewed
    case HumanApproval => from == PhaserReviewed && to == HumanApproved
    case PublishStart => from == HumanApproved && to == Publishing
    case Publish => from == Publishing && to == Published
    case Rollback => from == Publishing && to == RolledBack
    case Failure => Unfinished(from) && to == Failed
    case Interruption => Unfinished(from) && to == Interrupted
    case Quarantine => Unreviewed(from) && to == Quarantined
    case Anchor => false
    case Strip(_) => false
  }

  /** States that can still fail. */
  ghost predicate Unfinished(state: RunState) {
    || Unreviewed(state) || state == HumanApproved || state == Publishing || state == Retrying
  }

  /** States before a human approval. */
  ghost predicate Unreviewed(state: RunState) {
    || state == Requested || state == AnchorReady || state == StripsReady || state == Processed
    || state == AutoQcPassed || state == CandidateReady || state == PhaserReviewed
  }

  /** The state a finished stage leaves behind. */
  ghost predicate LeavesBehind(stage: Stage, to: RunState) { exists from :: Leads(from, stage, to) }

  ghost predicate AllStrips(run: Run) {
    && Strip(Down) in run.completed && Strip(Left) in run.completed && Strip(Up) in run.completed
    && (run.generateRight ==> Strip(Right) in run.completed)
  }

  /** Only these fields differ; files and registrations stay. */
  ghost predicate Becomes(
    run: Run, next: Run, state: RunState, completed: set<Stage>, claim: Option<ProviderStage>, failed: bool)
  {
    && next.state == state && next.completed == completed && next.claim == claim && next.failed == failed
    && next.files == run.files && next.registered == run.registered && next.generateRight == run.generateRight
  }

  /** A checkpoint: the one just made again, or a new one along the graph, with nothing claimed. */
  ghost predicate MayAdvance(run: Run, stage: Stage, error: bool, next: Run) {
    if stage in run.completed then next == run && LeavesBehind(stage, run.state) && run.failed == error
    else
      && run.claim.None? && Leads(run.state, stage, next.state)
      && (stage == Strips ==> AllStrips(run)) && (stage == Failure ==> error)
      && Becomes(run, next, next.state, run.completed + {stage}, None, error)
  }

  /** Why a checkpoint is refused; the earlier reason wins. */
  ghost predicate AdvanceRefused(run: Run, stage: Stage, error: bool, why: Error) {
    if stage == Anchor || stage.Strip? then why == StageClaimRequired
    else if stage in run.completed then why == StageConflict
    else if run.state == Published || run.state == RolledBack then why == RunTerminal
    else if run.claim.Some? then why == StageClaimHeld
    else if run.state == Failed || run.state == Interrupted then why == ExplicitRetryRequired
    else if run.state == Quarantined then why == ExplicitReviewRequired
    else if forall to :: !Leads(run.state, stage, to) then why == TransitionInvalid
    else (stage == Strips && why == StripsMissing) || (stage == Failure && why == ErrorMissing)
  }

  lemma TargetIs(stage: Stage)
    ensures Target(stage).None? <==> stage == Anchor || stage.Strip?
    ensures Target(stage).Some? ==> exists from :: Leads(from, stage, Target(stage).value)
    ensures forall from, to :: Leads(from, stage, to) ==> Target(stage) == Some(to)
  {
    if stage.Failure? || stage.Interruption? || stage.Quarantine? {
      assert Leads(Requested, stage, Target(stage).value);
    } else {
      hide Unfinished, Unreviewed;
      assert Leads(AnchorReady, Strips, StripsReady) && Leads(StripsReady, Postprocess, Processed);
      assert Leads(Processed, AutoQc, AutoQcPassed) && Leads(AutoQcPassed, Candidate, CandidateReady);
      assert Leads(CandidateReady, PhaserReview, PhaserReviewed) && Leads(PhaserReviewed, HumanApproval, HumanApproved);
      assert Leads(HumanApproved, PublishStart, Publishing) && Leads(Publishing, Publish, Published);
      assert Leads(Publishing, Rollback, RolledBack);
    }
  }

  lemma LeavesBehindIff(stage: Stage, to: RunState)
    ensures LeavesBehind(stage, to) <==> Target(stage) == Some(to)
  {
    TargetIs(stage);
    hide Leads, Target;
  }

  lemma EndsIff(from: RunState)
    ensures Failed in Allowed(from) <==> Unfinished(from)
    ensures Interrupted in Allowed(from) <==> Unfinished(from)
    ensures Quarantined in Allowed(from) <==> Unreviewed(from)
  {
  }

  lemma LeadsIff(from: RunState, stage: Stage)
    ensures Target(stage).Some? ==> (Leads(from, stage, Target(stage).value) <==> Target(stage).value in Allowed(from))
  {
    EndsIff(from);
    if stage.Failure? || stage.Interruption? || stage.Quarantine? {
      hide Allowed, Unfinished, Unreviewed;
    } else {
      hide Unfinished, Unreviewed;
    }
  }

  lemma StripsIff(run: Run)
    ensures (forall d :: d in Directions(run.generateRight) ==> Strip(d) in run.completed) <==> AllStrips(run)
  {
    assert Down in Directions(run.generateRight) && Left in Directions(run.generateRight);
    assert Up in Directions(run.generateRight) && (run.generateRight <==> Right in Directions(run.generateRight));
  }

  lemma RepeatsIff(run: Run, stage: Stage, error: bool)
    requires stage in run.completed
    ensures forall next :: AdvanceStage(run, stage, error) == Ok(next) <==> MayAdvance(run, stage, error, next)
    ensures forall why :: AdvanceStage(run, stage, error) == Err(why) ==> AdvanceRefused(run, stage, error, why)
  {
    TargetIs(stage);
    LeavesBehindIff(stage, run.state);
    hide Leads, LeavesBehind, Target, Allowed, AllStrips, Directions;
  }

  lemma NewIff(run: Run, stage: Stage, error: bool)
    requires stage !in run.completed
    ensures forall next :: AdvanceStage(run, stage, error) == Ok(next) <==> MayAdvance(run, stage, error, next)
  {
    TargetIs(stage);
    LeadsIff(run.state, stage);
    StripsIff(run);
    FromTheEnd(run.state);
    hide Leads, LeavesBehind, Target, Allowed, AllStrips, Directions;
  }

  lemma NewRefused(run: Run, stage: Stage, error: bool)
    requires stage !in run.completed
    ensures forall why :: AdvanceStage(run, stage, error) == Err(why) ==> AdvanceRefused(run, stage, error, why)
  {
    TargetIs(stage);
    LeadsIff(run.state, stage);
    hide Leads, LeavesBehind, Target, Allowed, Directions;
  }

  lemma AdvancesIff(run: Run, stage: Stage, error: bool)
    ensures forall next :: AdvanceStage(run, stage, error) == Ok(next) <==> MayAdvance(run, stage, error, next)
    ensures forall why :: AdvanceStage(run, stage, error) == Err(why) ==> AdvanceRefused(run, stage, error, why)
  {
    hide AdvanceStage, MayAdvance, AdvanceRefused;
    if stage in run.completed {
      RepeatsIff(run, stage, error);
    } else {
      NewIff(run, stage, error);
      NewRefused(run, stage, error);
    }
  }

  lemma FromTheEnd(state: RunState)
    ensures IsTerminal(state) || state in {Failed, Interrupted, Quarantined} ==> Allowed(state) == {}
  {
  }

  // ---------------------------------------------------------------- claims, retries and files

  ghost predicate Done(p: ProviderStage, stage: Stage) {
    (p == AnchorImage && stage == Anchor) || exists d :: p == StripImage(d) && stage == Strip(d)
  }

  /** A provider may be claimed for the anchor of a fresh run, and then for the strips it needs. */
  ghost predicate Claimable(run: Run, p: ProviderStage) {
    match p
    case AnchorImage => run.state == Requested || run.state == Retrying
    case StripImage(d) =>
      && Anchor in run.completed && (run.state == AnchorReady || run.state == Retrying)
      && (d == Right ==> run.generateRight)
  }

  ghost predicate May(run: Run, op: StoreOp, next: Run) {
    match op
    case Advance(stage, error) => MayAdvance(run, stage, error, next)
    case Claim(p) =>
      && run.claim.None? && Claimable(run, p) && (forall stage :: Done(p, stage) ==> stage !in run.completed)
      && Becomes(run, next, run.state, run.completed, Some(p), run.failed)
    case Complete =>
      run.claim.Some?
      && exists stage ::
           Done(run.claim.value, stage) && Becomes(run, next, AnchorReady, run.completed + {stage}, None, false)
    case FailTheClaim =>
      && run.claim.Some? && run.state != Published && run.state != RolledBack
      && Becomes(run, next, Failed, run.completed, None, true)
    case Release => run.claim.Some? && Becomes(run, next, run.state, run.completed, None, run.failed)
    case Retry =>
      && run.claim.None? && (run.state == Failed || run.state == Interrupted)
      && Becomes(run, next, Retrying, run.completed, None, false)
    case ReviewAgain =>
      run.claim.None? && run.state == Quarantined && Becomes(run, next, Processed, run.completed, None, false)
    case Create(path, content) =>
      && run.state != Published && run.state != RolledBack && (path in run.files ==> run.files[path] == content)
      && next.files == run.files[path := content] && next.registered == run.registered
      && Becomes(run, next.(files := run.files), run.state, run.completed, run.claim, run.failed)
    case Name(path) =>
      && path in run.files && next.registered == run.registered + {path}
      && Becomes(run, next.(registered := run.registered), run.state, run.completed, run.claim, run.failed)
  }

  /** Why an operation is refused; the earlier reason wins. */
  ghost predicate RefusedFor(run: Run, op: StoreOp, why: Error) {
    match op
    case Advance(stage, error) => AdvanceRefused(run, stage, error, why)
    case Claim(p) =>
      if run.state == Published || run.state == RolledBack then why == RunTerminal
      else if exists stage :: Done(p, stage) && stage in run.completed then why == StageConflict
      else if run.state == Failed || run.state == Interrupted then why == ExplicitRetryRequired
      else if run.state == Quarantined then why == ExplicitReviewRequired
      else why == if Claimable(run, p) then StageClaimHeld else StagePrecondition
    case Complete => why == StageClaimRequired
    case FailTheClaim =>
      why == if run.state == Published || run.state == RolledBack then RunTerminal else StageClaimRequired
    case Release => why == StageClaimRequired
    case Retry => why == if run.state == Failed || run.state == Interrupted then StageClaimHeld else TransitionInvalid
    case ReviewAgain => why == if run.state == Quarantined then StageClaimHeld else TransitionInvalid
    case Create(_, _) =>
      why == if run.state == Published || run.state == RolledBack then RunTerminal else ArtifactConflict
    case Name(_) => why == ArtifactMissing
  }

  lemma DoneIs(p: ProviderStage)
    ensures forall stage :: Done(p, stage) <==> stage == CompletedStage(p)
  {
  }

  lemma ClaimableIff(run: Run, p: ProviderStage)
    ensures Claimable(run, p)
       <==> match p
            case AnchorImage => run.state in {Requested, Retrying}
            case StripImage(d) => d in Directions(run.generateRight) && Anchor in run.completed
                                  && run.state in {AnchorReady, Retrying}
  {
  }

  lemma ClaimsIff(run: Run, p: ProviderStage)
    ensures forall next :: ClaimStage(run, p) == Ok(next) <==> May(run, Claim(p), next)
    ensures forall why :: ClaimStage(run, p) == Err(why) ==> RefusedFor(run, Claim(p), why)
  {
    DoneIs(p);
    ClaimableIff(run, p);
    hide Done, CompletedStage, Directions;
  }

  lemma CompletesIff(run: Run)
    ensures forall next :: CompleteStage(run) == Ok(next) <==> May(run, Complete, next)
    ensures forall why :: CompleteStage(run) == Err(why) ==> RefusedFor(run, Complete, why)
  {
    if run.claim.Some? {
      DoneIs(run.claim.value);
      assert Done(run.claim.value, CompletedStage(run.claim.value));
    }
    hide Done, CompletedStage;
  }

  lemma RecoversIff(run: Run, op: StoreOp)
    requires op in {FailTheClaim, Release, Retry, ReviewAgain}
    ensures forall next :: Apply(run, op) == Ok(next) <==> May(run, op, next)
    ensures forall why :: Apply(run, op) == Err(why) ==> RefusedFor(run, op, why)
  {
  }

  lemma WritesIff(run: Run, op: StoreOp)
    requires op.Create? || op.Name?
    ensures forall next :: Apply(run, op) == Ok(next) <==> May(run, op, next)
    ensures forall why :: Apply(run, op) == Err(why) ==> RefusedFor(run, op, why)
  {
  }

  /** The store takes exactly the steps of the relation, and says why it takes no other. */
  lemma AppliesIff(run: Run, op: StoreOp)
    ensures forall next :: Apply(run, op) == Ok(next) <==> May(run, op, next)
    ensures forall why :: Apply(run, op) == Err(why) ==> RefusedFor(run, op, why)
  {
    match op {
      case Advance(stage, error) => AdvancesIff(run, stage, error);
      case Claim(p) => ClaimsIff(run, p);
      case Complete => CompletesIff(run);
      case Create(_, _) => WritesIff(run, op);
      case Name(_) => WritesIff(run, op);
      case _ => RecoversIff(run, op);
    }
    hide AdvanceStage, ClaimStage, CompleteStage, FailClaim, ReleaseClaim, RetryRun, ReviewQuarantined, CreateFile;
    hide Done, Claimable, Becomes, MayAdvance, AdvanceRefused;
  }

  /** What is read back is what was written first under that name, and only once it is named. */
  lemma ReadsWhatWasWritten(run: Run, path: Path, content: Content, other: Path)
    requires WriteArtifact(run, path, content).Ok?
    ensures var after := WriteArtifact(run, path, content).value;
            && ReadArtifact(after, path) == Ok(content)
            && (other != path ==> ReadArtifact(after, other) == ReadArtifact(run, other))
    ensures path !in run.registered ==> ReadArtifact(run, path) == Err(ArtifactMissing)
  {
  }
}
