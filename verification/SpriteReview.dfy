/** Review, approval, rejection, publication and recovery of one sprite run, interleaved.

    The command line and the web review page drive the same stored run.  Each command is a
    small program of durable effects; any number of them run at once, take turns effect by
    effect, and may be killed at any point, while the generation worker goes on changing the
    run.  The properties are about every such history. */
module SpriteReview {
  import opened Bags
  import opened SpriteRun
  import opened SpritePublication

  /** One reviewer's submission on the web page. */
  datatype Form = Form(reviewer: string, checks: seq<bool>, texture: Content, shot: Content, at: int)

  /** The points a command has reached: review-phaser, approve and reject. */
  datatype ReviewStep =
    | PhaserLoad(reviewer: string, at: int)
    | PhaserCandidate(reviewer: string, at: int)
    | PhaserWrite(reviewer: string, at: int, seen: RunState)
    | PhaserName(seen: RunState)
    | PhaserAdvance(seen: RunState)
    | ApproveLoad(reviewer: string, checks: seq<bool>, at: int)
    | ApproveWrite(evidence: Content)
    | ApproveName
    | ApproveAdvance
    | RejectLoad(reviewer: string, reason: string, at: int)
    | RejectWrite(evidence: Content)
    | RejectName
    | RejectAdvance

  /** Approval on the web page, which goes on with the last three steps of approve. */
  datatype WebStep =
    | WebLoad(form: Form)
    | WebShot(form: Form, seen: RunState)
    | WebShotWrite(form: Form, seen: RunState)
    | WebShotName(form: Form, seen: RunState)
    | WebEvidence(form: Form, seen: RunState, shot: Content)
    | WebEvidenceWrite(form: Form, seen: RunState, shot: Content)
    | WebEvidenceName(form: Form, seen: RunState)
    | WebAdvance(form: Form, seen: RunState)

  /** The commands that touch the public directory: publish, recover, and what both end in. */
  datatype DirectoryStep =
    | PublishLoad
    | PublishRecord(texture: Content, portrait: Content, staged: bool)
    | PublishName(texture: Content, portrait: Content, staged: bool)
    | PublishEnter(texture: Content, portrait: Content, staged: bool)
    | PublishPut(texture: Content, portrait: Content)
    | PublishFlush(texture: Content, portrait: Content)
    | PublishCompare(texture: Content, portrait: Content)
    | PublishFinish(texture: Content, portrait: Content, installed: bool)
    | PublishUndo(texture: Content, portrait: Content, installed: bool)
    | RecoverLoad
    | Delete(deleted: nat)
    | RollBack

  datatype Job = Idle | Reviewing(review: ReviewStep) | Approving(web: WebStep) | Handling(step: DirectoryStep)

  datatype World = World(run: Run, target: Option<Directory>, jobs: seq<Job>)

  const SCREENSHOT: Path := OtherFile("review/phaser-screenshot.png")

  predicate AllNine(checks: seq<bool>) {
    |checks| == 9 && forall i :: 0 <= i < |checks| ==> checks[i]
  }

  predicate GoodApproval(c: Content) { c.Approved? && AllNine(c.checks) }

  // ---------------------------------------------------------------- what a command does next

  /** The next effect of a command: an operation on the run, the directory after it, where the
      command goes if that works, and where it goes if the step raises. */
  datatype Plan = Plan(op: Option<StoreOp>, target: Option<Directory>, next: Job, otherwise: Job)

  function Stop(target: Option<Directory>): Plan { Plan(None, target, Idle, Idle) }

  function Goto(target: Option<Directory>, next: Job): Plan { Plan(None, target, next, Idle) }

  function Do(op: StoreOp, target: Option<Directory>, next: Job): Plan { Plan(Some(op), target, next, Idle) }

  predicate QcPassed(run: Run) { ReadArtifact(run, QcReport) == Ok(Qc(true, 0)) }

  /** The two review surfaces. */
  function ReviewPlan(run: Run, target: Option<Directory>, at: ReviewStep): Plan {
    match at
    case PhaserLoad(who, at) =>
      if run.state !in {AutoQcPassed, CandidateReady, PhaserReviewed} then Stop(target)
      else if Assets(run).None? || !QcPassed(run) then Stop(target)
      else if run.state == AutoQcPassed then Goto(target, Reviewing(PhaserCandidate(who, at)))
      else Goto(target, Reviewing(PhaserWrite(who, at, run.state)))
    case PhaserCandidate(who, at) =>
      Do(Advance(Candidate, false), target, Reviewing(PhaserWrite(who, at, CandidateReady)))
    case PhaserWrite(who, at, seen) =>
      Do(Create(PhaserEvidence, Reviewed(who, None, at)), target, Reviewing(PhaserName(seen)))
    case PhaserName(seen) => Do(Name(PhaserEvidence), target, Reviewing(PhaserAdvance(seen)))
    case PhaserAdvance(seen) =>
      if seen == CandidateReady then Do(Advance(PhaserReview, false), target, Idle) else Stop(target)
    case ApproveLoad(who, checks, at) =>
      if run.state != PhaserReviewed || !AllNine(checks) then Stop(target)
      else Goto(target, Reviewing(ApproveWrite(Approved(who, checks, at))))
    case ApproveWrite(evidence) => Do(Create(ApprovalEvidence, evidence), target, Reviewing(ApproveName))
    case ApproveName => Do(Name(ApprovalEvidence), target, Reviewing(ApproveAdvance))
    case ApproveAdvance => Do(Advance(HumanApproval, false), target, Idle)
    case RejectLoad(who, why, at) =>
      if run.state !in {AutoQcPassed, CandidateReady, PhaserReviewed} || !(1 <= |why| <= 1000) then Stop(target)
      else Goto(target, Reviewing(RejectWrite(RejectedFor(who, why, at))))
    case RejectWrite(evidence) => Do(Create(RejectionEvidence, evidence), target, Reviewing(RejectName))
    case RejectName => Do(Name(RejectionEvidence), target, Reviewing(RejectAdvance))
    case RejectAdvance => Do(Advance(Quarantine, true), target, Idle)
  }

  /** Approval on the web page: stored evidence is reused, and must be this reviewer's. */
  function WebPlan(run: Run, target: Option<Directory>, at: WebStep): Plan {
    match at
    case WebLoad(form) =>
      if run.state !in {AutoQcPassed, CandidateReady, PhaserReviewed, HumanApproved} then Stop(target)
      else if ReadArtifact(run, Texture) != Ok(form.texture) || !AllNine(form.checks) then Stop(target)
      else Goto(target, Approving(WebShot(form, run.state)))
    case WebShot(form, seen) =>
      var stored := ReadArtifact(run, SCREENSHOT);
      if stored.Ok? then Goto(target, Approving(WebEvidence(form, seen, stored.value)))
      else Goto(target, Approving(WebShotWrite(form, seen)))
    case WebShotWrite(form, seen) => Do(Create(SCREENSHOT, form.shot), target, Approving(WebShotName(form, seen)))
    case WebShotName(form, seen) => Do(Name(SCREENSHOT), target, Approving(WebEvidence(form, seen, form.shot)))
    case WebEvidence(form, seen, shot) =>
      var stored := ReadArtifact(run, PhaserEvidence);
      if stored.Err? then Goto(target, Approving(WebEvidenceWrite(form, seen, shot)))
      else if stored.value.Reviewed? && stored.value.reviewer == form.reviewer && stored.value.render == Some(shot)
      then Goto(target, Approving(WebAdvance(form, seen)))
      else Stop(target)
    case WebEvidenceWrite(form, seen, shot) =>
      Do(Create(PhaserEvidence, Reviewed(form.reviewer, Some(shot), form.at)), target,
         Approving(WebEvidenceName(form, seen)))
    case WebEvidenceName(form, seen) => Do(Name(PhaserEvidence), target, Approving(WebAdvance(form, seen)))
    case WebAdvance(form, seen) =>
      if seen == AutoQcPassed then Do(Advance(Candidate, false), target, Approving(WebAdvance(form, CandidateReady)))
      else if seen == CandidateReady
      then Do(Advance(PhaserReview, false), target, Approving(WebAdvance(form, PhaserReviewed)))
      else if seen == PhaserReviewed
      then Goto(target, Reviewing(ApproveWrite(Approved(form.reviewer, form.checks, form.at))))
      else Stop(target)
  }

  /** Publication and recovery. */
  function PublishPlan(run: Run, target: Option<Directory>, at: DirectoryStep): Plan {
    match at
    case PublishLoad =>
      if MayStart(Disk(run, target)) then
        var (t, p) := Assets(run).value;
        Goto(target, Handling(PublishRecord(t, p, target.None?)))
      else Stop(target)
    case PublishRecord(t, p, staged) =>
      Do(Create(PublicationRecord, Publication(t, p)), target, Handling(PublishName(t, p, staged)))
    case PublishName(t, p, staged) => Do(Name(PublicationRecord), target, Handling(PublishEnter(t, p, staged)))
    case PublishEnter(t, p, staged) =>
      Do(Advance(PublishStart, false), target,
         if staged then Handling(PublishPut(t, p)) else Handling(PublishFinish(t, p, false)))
    case PublishPut(t, p) =>
      if target.None? || target.value == map[] then
        Plan(None, Some(Expected(t, p)), Handling(PublishFlush(t, p)), Handling(PublishCompare(t, p)))
      else Goto(target, Handling(PublishCompare(t, p)))
    case PublishFlush(t, p) =>
      Plan(None, target, Handling(PublishFinish(t, p, true)), Handling(PublishUndo(t, p, true)))
    case PublishCompare(t, p) =>
      if target == Some(Expected(t, p))
      then Plan(None, target, Handling(PublishFinish(t, p, false)), Handling(PublishUndo(t, p, false)))
      else Goto(target, Handling(PublishUndo(t, p, false)))
    case PublishFinish(t, p, installed) =>
      Plan(Some(Advance(SpriteRun.Publish, false)), target, Idle, Handling(PublishUndo(t, p, installed)))
    case PublishUndo(t, p, installed) =>
      if installed && target.Some?
      then (if target == Some(Expected(t, p)) then Goto(target, Handling(Delete(0))) else Stop(target))
      else Goto(target, Handling(RollBack))
    case RecoverLoad =>
      if run.state != Publishing then Stop(target)
      else if target.None? then Goto(target, Handling(RollBack))
      else if MatchesRecord(Disk(run, target)) then Goto(target, Handling(Delete(0)))
      else Stop(target)
    case Delete(n) =>
      if target.None? then Stop(target)
      else if n < |NAMES| then Goto(Some(target.value - {NAMES[n]}), Handling(Delete(n + 1)))
      else if target.value == map[] then Goto(None, Handling(RollBack))
      else Stop(target)
    case RollBack => Do(Advance(Rollback, false), target, Idle)
  }

  /** Recovery deletes only a directory that matches the stored record and images exactly. */
  predicate MatchesRecord(d: Disk) {
    && d.target.Some? && Assets(d.run).Some?
    && ReadArtifact(d.run, PublicationRecord) == Ok(Publication(Assets(d.run).value.0, Assets(d.run).value.1))
    && d.target.value == Expected(Assets(d.run).value.0, Assets(d.run).value.1)
  }

  function NextPlan(run: Run, target: Option<Directory>, job: Job): Plan {
    match job
    case Idle => Stop(target)
    case Reviewing(at) => ReviewPlan(run, target, at)
    case Approving(at) => WebPlan(run, target, at)
    case Handling(at) => PublishPlan(run, target, at)
  }

  // ---------------------------------------------------------------- histories

  datatype Outcome = Fine | RaisesBefore | RaisesAfter

  datatype Event =
    | Begin(i: nat, job: Job)
    | Go(i: nat, outcome: Outcome)
    | Crash(i: nat)
    | Worker(op: StoreOp)

  predicate Opening(job: Job) {
    match job
    case Idle => false
    case Reviewing(at) => at.PhaserLoad? || at.ApproveLoad? || at.RejectLoad?
    case Approving(at) => at.WebLoad?
    case Handling(at) => at.PublishLoad? || at.RecoverLoad?
  }

  /** What generation does to the run: claims, its own files, and checkpoints up to automatic QC. */
  predicate WorkerOp(op: StoreOp) {
    match op
    case Advance(stage, _) => stage in {Strips, Postprocess, AutoQc, Failure, Interruption, Quarantine}
    case ReviewAgain => false
    case Create(path, _) => path in {Texture, Portrait, QcReport} || (path.OtherFile? && path != SCREENSHOT)
    case Name(path) => path in {Texture, Portrait, QcReport} || (path.OtherFile? && path != SCREENSHOT)
    case _ => true
  }

  /** One effect of one command, under the outcome fate chooses for it. */
  function Effect(run: Run, target: Option<Directory>, job: Job, outcome: Outcome): (Run, Option<Directory>, Job) {
    var plan := NextPlan(run, target, job);
    if outcome == RaisesBefore then (run, target, plan.otherwise)
    else if plan.op.None? then (run, plan.target, if outcome == Fine then plan.next else plan.otherwise)
    else
      var r := Apply(run, plan.op.value);
      if r.Err? then (run, target, plan.otherwise)
      else (r.value, plan.target, if outcome == Fine then plan.next else plan.otherwise)
  }

  function Step(w: World, e: Event): World {
    match e
    case Begin(i, job) =>
      if i < |w.jobs| && w.jobs[i].Idle? && Opening(job) then w.(jobs := w.jobs[i := job]) else w
    case Go(i, outcome) =>
      if i < |w.jobs| then
        var (run, target, job) := Effect(w.run, w.target, w.jobs[i], outcome);
        World(run, target, w.jobs[i := job])
      else w
    case Crash(i) => if i < |w.jobs| then w.(jobs := w.jobs[i := Idle]) else w
    case Worker(op) =>
      var r := Apply(w.run, op);
      if WorkerOp(op) && r.Ok? then w.(run := r.value) else w
  }

  function After(w: World, events: seq<Event>): World {
    if events == [] then w else Step(After(w, events[..|events| - 1]), events[|events| - 1])
  }

  predicate Initial(w: World) {
    && w.run.state == Requested && w.run.completed == {} && w.run.files == map[] && w.run.registered == {}
    && w.run.claim.None?
    && forall i :: 0 <= i < |w.jobs| ==> w.jobs[i].Idle?
  }

  // ---------------------------------------------------------------- evidence

  /** The screenshot on file. */
  predicate Screened(run: Run, shot: Content) {
    SCREENSHOT in run.registered && SCREENSHOT in run.files && run.files[SCREENSHOT] == shot
  }

  /** Stages are checkpointed in order, and a run never goes back to before one. */
  ghost predicate InOrder(run: Run) {
    && (run.state == CandidateReady ==> Candidate in run.completed)
    && (Candidate in run.completed ==> run.state != AutoQcPassed)
    && (PhaserReview in run.completed ==> Candidate in run.completed && run.state !in {AutoQcPassed, CandidateReady})
    && (HumanApproval in run.completed ==>
          PhaserReview in run.completed && run.state !in {AutoQcPassed, CandidateReady, PhaserReviewed})
    && (run.state in {Publishing, Published, RolledBack} ==> PublishStart in run.completed)
    && (Quarantine in run.completed <==> run.state == Quarantined)
  }

  /** What the command behind a stored Phaser review had checked: the images and the report on the
      command line, the texture and a stored screenshot on the web page. */
  ghost predicate Founded(run: Run, evidence: Content) {
    && evidence.Reviewed? && ReadArtifact(run, Texture).Ok?
    && (evidence.render.Some? ==> Screened(run, evidence.render.value))
    && (evidence.render.None? ==> Assets(run).Some? && QcPassed(run))
  }

  /** A run's state never runs ahead of the evidence stored for it. */
  ghost predicate Documented(run: Run) {
    && Sound(run) && WellFormed(run) && InOrder(run)
    && (PhaserEvidence in run.files ==> Founded(run, run.files[PhaserEvidence]))
    && (ApprovalEvidence in run.files ==> GoodApproval(run.files[ApprovalEvidence]))
    && (PhaserReview in run.completed ==> PhaserEvidence in run.registered)
    && (HumanApproval in run.completed ==> ApprovalEvidence in run.registered)
    && (run.state in {PhaserReviewed, HumanApproved, Publishing, Published, RolledBack} ==>
        PhaserReview in run.completed)
    && (run.state in {HumanApproved, Publishing, Published, RolledBack} ==> HumanApproval in run.completed)
  }

  /** What a command may rely on at the point it has reached. */
  ghost predicate Backed(run: Run, job: Job) {
    match job
    case Reviewing(PhaserCandidate(_, _)) => Assets(run).Some? && QcPassed(run)
    case Reviewing(PhaserWrite(_, _, _)) => Assets(run).Some? && QcPassed(run)
    case Reviewing(PhaserAdvance(_)) => PhaserEvidence in run.registered
    case Reviewing(ApproveWrite(evidence)) => GoodApproval(evidence)
    case Reviewing(ApproveAdvance) => ApprovalEvidence in run.registered
    case Approving(at) =>
      && (at.WebLoad? || (AllNine(at.form.checks) && ReadArtifact(run, Texture) == Ok(at.form.texture)))
      && (at.WebAdvance? ==> PhaserEvidence in run.registered)
      && (at.WebShotName? ==> SCREENSHOT in run.files && run.files[SCREENSHOT] == at.form.shot)
      && (at.WebEvidence? || at.WebEvidenceWrite? ==> Screened(run, at.shot))
    case Handling(at) =>
      (|| at.PublishName? || at.PublishEnter? || at.PublishPut? || at.PublishFlush? || at.PublishCompare?
       || at.PublishFinish?) ==>
        PublicationRecord in run.files && run.files[PublicationRecord] == Publication(at.texture, at.portrait)
    case _ => true
  }

  /** An operation that keeps the run documented. */
  ghost predicate Justified(run: Run, op: StoreOp) {
    match op
    case Advance(stage, _) =>
      (stage == PhaserReview ==> PhaserEvidence in run.registered)
          && (stage == HumanApproval ==> ApprovalEvidence in run.registered)
    case Create(path, content) =>
      (path == PhaserEvidence ==> Founded(run, content)) && (path == ApprovalEvidence ==> GoodApproval(content))
    case ReviewAgain => false
    case _ => true
  }

  /** Stored files never change and the manifest never forgets one. */
  ghost predicate Grows(before: Run, after: Run) {
    && before.registered <= after.registered
    && (forall p :: p in before.files ==> p in after.files && after.files[p] == before.files[p])
    && (before.state == Quarantined ==> after.state == Quarantined)
    && (IsTerminal(before.state) ==> after.state == before.state)
  }

  lemma AdvanceInOrder(run: Run, stage: Stage, error: bool)
    requires Sound(run) && InOrder(run) && AdvanceStage(run, stage, error).Ok?
    requires run.state in {PhaserReviewed, HumanApproved, Publishing, Published, RolledBack} ==>
               PhaserReview in run.completed
    ensures InOrder(AdvanceStage(run, stage, error).value)
  {
    var next := AdvanceStage(run, stage, error).value;
    if next != run {
      assert stage !in run.completed && next.completed == run.completed + {stage} && next.state == Target(stage).value;
      assert Target(stage).value in Allowed(run.state);
      var late := run.completed * {Candidate, PhaserReview, HumanApproval, PublishStart, SpriteRun.Publish, Rollback};
      assert Candidate in run.completed ==> Candidate in late;
      assert PhaserReview in run.completed ==> PhaserReview in late;
      assert HumanApproval in run.completed ==> HumanApproval in late;
      hide AdvanceStage;
    }
  }

  /** What is on file stays there, and so does what a review is founded on. */
  lemma FoundedStays(before: Run, after: Run, evidence: Content)
    requires WellFormed(before) && Founded(before, evidence) && before.registered <= after.registered
    requires forall p :: p in before.files ==> p in after.files && after.files[p] == before.files[p]
    ensures Founded(after, evidence)
  {
  }

  lemma AdvanceDocumented(run: Run, stage: Stage, error: bool)
    requires Documented(run) && Justified(run, Advance(stage, error)) && AdvanceStage(run, stage, error).Ok?
    ensures Documented(AdvanceStage(run, stage, error).value) && Grows(run, AdvanceStage(run, stage, error).value)
  {
    AdvanceSound(run, stage, error);
    AdvanceInOrder(run, stage, error);
    var next := AdvanceStage(run, stage, error).value;
    if next != run {
      assert next.state == PhaserReviewed ==> stage == PhaserReview;
      assert next.state == HumanApproved ==> stage == HumanApproval && run.state == PhaserReviewed;
      assert next.state == Publishing ==> run.state == HumanApproved;
      assert next.state == Published || next.state == RolledBack ==> run.state == Publishing;
      assert run.state != Quarantined && !IsTerminal(run.state);
      assert next == run.(state := next.state, completed := run.completed + {stage}, failed := error);
      if PhaserEvidence in run.files {
        FoundedStays(run, next, run.files[PhaserEvidence]);
      }
    }
    hide Sound, AdvanceStage, Allowed, Target, InOrder, Founded;
  }

  lemma ApplyDocumented(run: Run, op: StoreOp)
    requires Documented(run) && Justified(run, op) && Apply(run, op).Ok?
    ensures Documented(Apply(run, op).value) && Grows(run, Apply(run, op).value)
  {
    if op.Advance? {
      AdvanceDocumented(run, op.stage, op.error);
    } else {
      ApplySound(run, op);
      hide AdvanceStage;
      var next := Apply(run, op).value;
      if PhaserEvidence in run.files {
        FoundedStays(run, next, run.files[PhaserEvidence]);
      } else if op.Create? && op.path == PhaserEvidence {
        FoundedStays(run, next, op.content);
      }
      hide Sound, Founded;
    }
  }

  /** A plan a documented run survives, whichever way the step ends. */
  ghost predicate SoundPlan(run: Run, plan: Plan) {
    && (plan.op.Some? ==> Justified(run, plan.op.value))
    && Backed(run, plan.otherwise)
    && (plan.op.None? ==> Backed(run, plan.next))
    && (plan.op.Some? && Apply(run, plan.op.value).Ok? ==> Backed(Apply(run, plan.op.value).value, plan.next))
  }

  /** A checkpoint touches no file. */
  lemma AdvanceKeepsFiles(run: Run, stage: Stage, error: bool)
    requires AdvanceStage(run, stage, error).Ok?
    ensures var next := AdvanceStage(run, stage, error).value;
            Assets(next) == Assets(run) && QcPassed(next) == QcPassed(run)
  {
    assert AdvanceStage(run, stage, error).value.files == run.files;
    assert AdvanceStage(run, stage, error).value.registered == run.registered;
    hide AdvanceStage;
  }

  lemma ReviewPlanSound(run: Run, target: Option<Directory>, at: ReviewStep)
    requires Backed(run, Reviewing(at))
    ensures SoundPlan(run, ReviewPlan(run, target, at))
  {
    hide AdvanceStage, ReadArtifact, QcPassed, ClaimStage, CompleteStage, FailClaim, ReleaseClaim, RetryRun,
         ReviewQuarantined;
    if at.ApproveLoad? {
      hide Apply;
    } else if at.PhaserCandidate? {
      if AdvanceStage(run, Candidate, false).Ok? {
        AdvanceKeepsFiles(run, Candidate, false);
      }
      hide AllNine, Assets;
    } else {
      hide AllNine;
    }
  }

  lemma WebPlanSound(run: Run, target: Option<Directory>, at: WebStep)
    requires Backed(run, Approving(at))
    ensures SoundPlan(run, WebPlan(run, target, at))
  {
    hide ClaimStage, CompleteStage, FailClaim, ReleaseClaim, RetryRun, ReviewQuarantined;
    if at.WebAdvance? {
      hide ReadArtifact;
    } else {
      hide AdvanceStage;
    }
  }

  lemma PublishPlanSound(run: Run, target: Option<Directory>, at: DirectoryStep)
    requires Backed(run, Handling(at))
    ensures SoundPlan(run, PublishPlan(run, target, at))
  {
    hide MayStart, MatchesRecord, Expected, AdvanceStage;
    if at.PublishEnter? && AdvanceStage(run, PublishStart, false).Ok? {
      AdvanceKeepsRecord(run, PublishStart);
    }
  }

  lemma AdvanceKeepsRecord(run: Run, stage: Stage)
    requires AdvanceStage(run, stage, false).Ok?
    ensures AdvanceStage(run, stage, false).value.files == run.files
  {
  }

  lemma EveryPlanSound(run: Run, target: Option<Directory>, job: Job)
    requires Backed(run, job)
    ensures SoundPlan(run, NextPlan(run, target, job))
  {
    assert job.Idle? ==> SoundPlan(run, Stop(target));
    hide SoundPlan, ReviewPlan, WebPlan, PublishPlan, Backed;
    match job
    case Idle =>
    case Reviewing(at) => ReviewPlanSound(run, target, at);
    case Approving(at) => WebPlanSound(run, target, at);
    case Handling(at) => PublishPlanSound(run, target, at);
  }

  /** What a command may rely on it may go on relying on. */
  lemma BackedGrows(before: Run, after: Run, job: Job)
    requires Documented(before) && Backed(before, job)
    ensures Grows(before, after) ==> Backed(after, job)
  {
    hide Sound, InOrder, Founded, GoodApproval, AllNine;
  }

  lemma EffectDocumented(run: Run, target: Option<Directory>, job: Job, outcome: Outcome)
    requires Documented(run) && Backed(run, job)
    ensures var (run', _, job') := Effect(run, target, job, outcome);
            Documented(run') && Grows(run, run') && Backed(run', job')
  {
    hide NextPlan, Documented, Backed, Justified, Apply, Grows;
    EveryPlanSound(run, target, job);
    var plan := NextPlan(run, target, job);
    GrowsOn(run, run, run);
    BackedGrows(run, Effect(run, target, job, outcome).0, plan.otherwise);
    if plan.op.Some? && Apply(run, plan.op.value).Ok? {
      ApplyDocumented(run, plan.op.value);
    }
  }

  ghost predicate AllBacked(w: World) {
    Documented(w.run) && forall i :: 0 <= i < |w.jobs| ==> Backed(w.run, w.jobs[i])
  }

  lemma WorkerJustified(run: Run, op: StoreOp)
    requires WorkerOp(op)
    ensures Justified(run, op)
  {
  }

  lemma FreshIsBacked(run: Run, job: Job)
    ensures Opening(job) || job.Idle? ==> Backed(run, job)
  {
  }

  lemma StepBacked(w: World, e: Event)
    requires AllBacked(w)
    ensures AllBacked(Step(w, e)) && Grows(w.run, Step(w, e).run)
  {
    hide Documented, Backed, Apply, Effect, WorkerOp, Opening;
    FreshIsBacked(w.run, if e.Begin? then e.job else Idle);
    FreshIsBacked(w.run, Idle);
    if e.Go? && e.i < |w.jobs| {
      EffectDocumented(w.run, w.target, w.jobs[e.i], e.outcome);
    } else if e.Worker? && WorkerOp(e.op) && Apply(w.run, e.op).Ok? {
      WorkerJustified(w.run, e.op);
      ApplyDocumented(w.run, e.op);
    }
    forall i | 0 <= i < |w.jobs| && Step(w, e).jobs[i] == w.jobs[i] ensures Backed(Step(w, e).run, w.jobs[i]) {
      BackedGrows(w.run, Step(w, e).run, w.jobs[i]);
    }
  }

  lemma InitiallyBacked(w: World)
    requires Initial(w)
    ensures AllBacked(w)
  {
  }

  lemma {:induction false} AlwaysBacked(w: World, events: seq<Event>)
    requires Initial(w)
    ensures AllBacked(After(w, events))
  {
    hide AllBacked, Step, Initial;
    if events == [] {
      InitiallyBacked(w);
    } else {
      AlwaysBacked(w, events[..|events| - 1]);
      StepBacked(After(w, events[..|events| - 1]), events[|events| - 1]);
    }
  }

  /** Whatever the interleaving, the crashes and the failures: a run past Phaser review can
      produce its Phaser evidence and everything that evidence is about, and a run past approval an
      approval with all nine checks. */
  lemma EvidenceIsStored(w: World, events: seq<Event>)
    requires Initial(w)
    ensures var run := After(w, events).run;
            && (run.state in {PhaserReviewed, HumanApproved, Publishing, Published, RolledBack} ==>
                  ReadArtifact(run, PhaserEvidence).Ok? && WellFounded(run, ReadArtifact(run, PhaserEvidence).value))
            && (run.state in {HumanApproved, Publishing, Published, RolledBack} ==>
                  ReadArtifact(run, ApprovalEvidence).Ok? && AllChecked(ReadArtifact(run, ApprovalEvidence).value))
  {
    AlwaysBacked(w, events);
    var run := After(w, events).run;
    if PhaserEvidence in run.files {
      FoundedMeans(run, run.files[PhaserEvidence]);
    }
    if ApprovalEvidence in run.files {
      GoodApprovalMeans(run.files[ApprovalEvidence]);
    }
    hide After, Sound, GoodApproval, Founded, WellFounded, AllChecked;
  }

  /** An approval with nine checks, all of them made. */
  ghost predicate AllChecked(c: Content) {
    && c.Approved? && |c.checks| == 9
    && c.checks[0] && c.checks[1] && c.checks[2] && c.checks[3] && c.checks[4] && c.checks[5] && c.checks[6]
    && c.checks[7] && c.checks[8]
  }

  /** A Phaser review of what is on file: the texture with the screenshot taken of it, or both
      images with a report of a passed QC without findings. */
  ghost predicate WellFounded(run: Run, c: Content) {
    && c.Reviewed? && ReadArtifact(run, Texture).Ok?
    && (if c.render.Some? then ReadArtifact(run, OtherFile("review/phaser-screenshot.png")) == Ok(c.render.value)
        else ReadArtifact(run, Portrait).Ok? && ReadArtifact(run, QcReport) == Ok(Qc(true, 0)))
  }

  lemma GoodApprovalMeans(c: Content)
    ensures GoodApproval(c) <==> AllChecked(c)
  {
  }

  lemma FoundedMeans(run: Run, c: Content)
    ensures Founded(run, c) <==> WellFounded(run, c)
  {
  }

  /** The command has put the public directory in place itself. */
  ghost predicate HasInstalled(job: Job) {
    job.Handling? && (job.step.PublishFlush? || (job.step.PublishFinish? && job.step.installed)
                      || (job.step.PublishUndo? && job.step.installed))
  }

  /** A publication undoes only what it installed itself, and it installs only where there was
      nothing: texture, portrait and record. */
  lemma OnlyTheInstallerUndoes(run: Run, target: Option<Directory>, job: Job, outcome: Outcome)
    requires HasInstalled(Effect(run, target, job, outcome).2) && !HasInstalled(job)
    ensures job.Handling? && job.step.PublishPut? && (target == None || target == Some(map[]))
    ensures Effect(run, target, job, outcome).1
         == Some(map["texture.png" := job.step.texture, "portrait.png" := job.step.portrait,
                     "publication.json" := Publication(job.step.texture, job.step.portrait)])
  {
    hide Apply;
  }

  /** Without having installed anything it leaves the directory as it is, and only rolls the run back. */
  lemma UndoKeepsWhatItFound(run: Run, target: Option<Directory>, texture: Content, portrait: Content, outcome: Outcome)
    ensures var (after, left, next) := Effect(run, target, Handling(PublishUndo(texture, portrait, false)), outcome);
            after == run && left == target && (next == Handling(RollBack) || next == Idle)
  {
    hide Apply;
  }

  lemma Then(w: World, events: seq<Event>, e: Event)
    ensures After(w, events + [e]) == Step(After(w, events), e)
  {
    assert (events + [e])[..|events|] == events;
  }

  lemma GrowsOn(first: Run, second: Run, third: Run)
    ensures Grows(first, first)
    ensures Grows(first, second) && Grows(second, third) ==> Grows(first, third)
    ensures Grows(first, second) && first.state == Quarantined ==> second.state == Quarantined
  {
  }

  /** A quarantined run stays quarantined under every command here and the worker, and
      stored evidence is never altered or forgotten. */
  lemma {:induction false} NothingIsUndone(w: World, events: seq<Event>, more: seq<Event>)
    requires Initial(w)
    ensures Grows(After(w, events).run, After(w, events + more).run)
    ensures After(w, events).run.state == Quarantined ==> After(w, events + more).run.state == Quarantined
  {
    hide AllBacked, Step, Grows, After, Initial;
    GrowsOn(After(w, events).run, After(w, events + more).run, After(w, events + more).run);
    if more == [] {
      assert events + more == events;
    } else {
      var shorter, last := more[..|more| - 1], more[|more| - 1];
      NothingIsUndone(w, events, shorter);
      AlwaysBacked(w, events + shorter);
      Then(w, events + shorter, last);
      assert events + more == (events + shorter) + [last];
      StepBacked(After(w, events + shorter), last);
      GrowsOn(After(w, events).run, After(w, events + shorter).run, After(w, events + more).run);
    }
  }

  // ---------------------------------------------------------------- one publication at a time

  /** What a publication knows about the directory while no other command touches it. */
  ghost predicate Holding(run: Run, target: Option<Directory>, job: Job) {
    job.Handling? ==>
      match job.step
      case PublishRecord(t, p, staged) => Assets(run) == Some((t, p)) && (staged || target == Some(Expected(t, p)))
      case PublishName(t, p, staged) => Assets(run) == Some((t, p)) && (staged || target == Some(Expected(t, p)))
      case PublishEnter(t, p, staged) => Assets(run) == Some((t, p)) && (staged || target == Some(Expected(t, p)))
      case PublishPut(t, p) => Assets(run) == Some((t, p))
      case PublishFlush(t, p) => Assets(run) == Some((t, p)) && target == Some(Expected(t, p))
      case PublishCompare(t, p) => Assets(run) == Some((t, p))
      case PublishFinish(t, p, _) => Assets(run) == Some((t, p)) && target == Some(Expected(t, p))
      case _ => true
  }

  /** At most one command that touches the public directory is under way. */
  ghost predicate Exclusive(w: World) {
    forall i, j | 0 <= i < |w.jobs| && 0 <= j < |w.jobs| :: w.jobs[i].Handling? && w.jobs[j].Handling? ==> i == j
  }

  ghost predicate AllHolding(w: World) {
    forall i :: 0 <= i < |w.jobs| ==> Holding(w.run, w.target, w.jobs[i])
  }

  ghost predicate ExclusiveThroughout(w: World, events: seq<Event>) {
    forall k :: 0 <= k <= |events| ==> Exclusive(After(w, events[..k]))
  }

  lemma StillHolding(before: Run, after: Run, target: Option<Directory>, job: Job)
    requires Grows(before, after) && WellFormed(before) && Holding(before, target, job)
    ensures Holding(after, target, job)
  {
    hide Expected;
    assert Assets(before).Some? ==> Assets(after) == Assets(before);
    hide Assets;
  }

  /** The step of a publication keeps what it knows, and enters `published` only with the
      expected files in place. */
  lemma EffectHolding(run: Run, target: Option<Directory>, job: Job, outcome: Outcome)
    requires Documented(run) && Backed(run, job) && Holding(run, target, job)
    ensures var (run', target', job') := Effect(run, target, job, outcome);
            && Holding(run', target', job')
            && (!job.Handling? ==>
                  target' == target && !job'.Handling? && (run'.state == Published ==> run.state == Published))
            && (run'.state == Published != run.state ==>
                  job.Handling? && job.step.PublishFinish? && Assets(run').Some?
                  && target' == Some(ExpectedHere(Disk(run', target')))
                  && (outcome != RaisesAfter ==> job'.Idle?)
                  && PublicationRecord in run'.files
                  && run'.files[PublicationRecord] == Publication(Assets(run').value.0, Assets(run').value.1))
  {
    EffectDocumented(run, target, job, outcome);
    var plan := NextPlan(run, target, job);
    var (run', target', job') := Effect(run, target, job, outcome);
    PlanHolding(run, target, job);
    StillHolding(run, run', target, plan.otherwise);
    StillHolding(run, run', plan.target, plan.otherwise);
    StillHolding(run, run', plan.target, plan.next);
    if plan.op.Some? && Apply(run, plan.op.value).Ok? {
      if run'.state == Published != run.state {
        OnlyPublishPublishes(run, plan.op.value);
      }
    }
    hide NextPlan, Holding, Documented, Backed, Grows, Expected, Assets, Apply;
  }

  lemma OnlyPublishPublishes(run: Run, op: StoreOp)
    requires Apply(run, op).Ok? && Apply(run, op).value.state == Published != run.state
    ensures op.Advance? && op.stage == SpriteRun.Publish
    ensures Assets(Apply(run, op).value) == Assets(run)
  {
  }

  lemma PlanHolding(run: Run, target: Option<Directory>, job: Job)
    requires Holding(run, target, job)
    ensures var plan := NextPlan(run, target, job);
            && Holding(run, target, plan.otherwise) && Holding(run, plan.target, plan.next)
            && Holding(run, plan.target, plan.otherwise)
            && (!job.Handling? ==> plan.target == target && !plan.next.Handling? && !plan.otherwise.Handling?)
            && (plan.op.Some? && plan.op.value.Advance? && plan.op.value.stage == SpriteRun.Publish ==>
                  job.Handling? && job.step.PublishFinish? && Assets(run).Some?
                      && plan.target == Some(ExpectedHere(Disk(run, target))) && plan.next.Idle?)
  {
    hide Expected, Assets, MatchesRecord;
    if job.Handling? {
      hide WebPlan, ReviewPlan;
      if job.step.PublishLoad? && MayStart(Disk(run, target)) {
        var next := NextPlan(run, target, job).next;
        assert next.step.texture == Assets(run).value.0 && next.step.portrait == Assets(run).value.1;
      }
    } else {
      hide PublishPlan;
    }
  }

  lemma StepHolding(w: World, e: Event)
    requires AllBacked(w) && Exclusive(w) && AllHolding(w)
    ensures AllHolding(Step(w, e))
    ensures Step(w, e).run.state == Published != w.run.state ==>
              e.Go? && e.i < |w.jobs| && w.jobs[e.i].Handling?
                  && (e.outcome != RaisesAfter ==> Step(w, e).jobs[e.i].Idle?)
    ensures Step(w, e).run.state == Published != w.run.state && Assets(Step(w, e).run).Some? ==>
              var run := Step(w, e).run;
              PublicationRecord in run.files
              && run.files[PublicationRecord] == Publication(Assets(run).value.0, Assets(run).value.1)
    ensures Step(w, e).run.state == Published != w.run.state ==>
              Assets(Step(w, e).run).Some?
                  && Step(w, e).target == Some(ExpectedHere(Disk(Step(w, e).run, Step(w, e).target)))
  {
    StepBacked(w, e);
    if e.Go? && e.i < |w.jobs| {
      EffectHolding(w.run, w.target, w.jobs[e.i], e.outcome);
    } else if e.Worker? && WorkerOp(e.op) && Apply(w.run, e.op).Ok? {
      if Apply(w.run, e.op).value.state == Published != w.run.state {
        OnlyPublishPublishes(w.run, e.op);
        assert false;
      }
    }
    hide Sound, Backed, Effect, Apply, WorkerOp, Assets, Expected, Grows;
    forall i | 0 <= i < |w.jobs| && (e.Go? ==> i != e.i) && Step(w, e).jobs[i] == w.jobs[i]
      ensures Holding(Step(w, e).run, Step(w, e).target, w.jobs[i])
    {
      if Step(w, e).target != w.target {
        assert !w.jobs[i].Handling?;
      } else {
        StillHolding(w.run, Step(w, e).run, w.target, w.jobs[i]);
      }
    }
  }

  /** `published` is only ever entered with the expected files in place, on every history in
      which no two publish or recover commands are under way at the same time. */
  lemma {:induction false} PublishedWithFiles(w: World, events: seq<Event>, e: Event)
    requires Initial(w) && ExclusiveThroughout(w, events)
    requires After(w, events).run.state != Published && After(w, events + [e]).run.state == Published
    ensures var after := After(w, events + [e]);
            Assets(after.run).Some? && after.target == Some(ExpectedHere(Disk(after.run, after.target)))
    ensures var run, target := After(w, events + [e]).run, After(w, events + [e]).target;
            && target.Some? && target.value.Keys == {"texture.png", "portrait.png", "publication.json"}
            && Texture in run.files && target.value["texture.png"] == run.files[Texture]
            && Portrait in run.files && target.value["portrait.png"] == run.files[Portrait]
            && PublicationRecord in run.files && target.value["publication.json"] == run.files[PublicationRecord]
            && run.files[PublicationRecord] == Publication(run.files[Texture], run.files[Portrait])
  {
    AlwaysBacked(w, events);
    AlwaysHolding(w, events);
    assert events[..|events|] == events && (events + [e])[..|events|] == events;
    StepHolding(After(w, events), e);
    var run := After(w, events + [e]).run;
    ExpectedFiles(Assets(run).value.0, Assets(run).value.1);
    hide After, Expected, ExclusiveThroughout, Initial, AllHolding, Step;
  }

  lemma {:induction false} AlwaysHolding(w: World, events: seq<Event>)
    requires Initial(w) && ExclusiveThroughout(w, events)
    ensures AllHolding(After(w, events))
  {
    if events != [] {
      var shorter := events[..|events| - 1];
      forall k | 0 <= k <= |shorter| ensures Exclusive(After(w, shorter[..k])) {
        assert shorter[..k] == events[..k];
      }
      AlwaysHolding(w, shorter);
      AlwaysBacked(w, shorter);
      assert shorter[..|shorter|] == shorter;
      hide Exclusive, AllHolding, Step, AllBacked;
      assert Exclusive(After(w, shorter));
      StepHolding(After(w, shorter), events[|events| - 1]);
    }
  }

  /** Nothing is left that could disturb a published run. */
  ghost predicate Settled(w: World) {
    w.run.state == Published ==>
      && Assets(w.run).Some? && w.target == Some(ExpectedHere(Disk(w.run, w.target)))
      && forall i :: 0 <= i < |w.jobs| && w.jobs[i].Handling? ==>
           w.jobs[i].step.PublishLoad? || w.jobs[i].step.RecoverLoad?
  }

  lemma StepSettled(w: World, e: Event)
    requires AllBacked(w) && Exclusive(w) && AllHolding(w) && Settled(w) && !(e.Go? && e.outcome == RaisesAfter)
    ensures Settled(Step(w, e))
  {
    StepBacked(w, e);
    StepHolding(w, e);
    hide AllBacked, AllHolding, Documented, Apply, WorkerOp, Assets, Expected, Grows;
    if e.Go? && e.i < |w.jobs| {
      EffectKeeps(w.run, w.target, w.jobs[e.i], e.outcome);
      hide Effect;
    } else {
      hide Effect, Exclusive;
    }
  }

  lemma EffectKeeps(run: Run, target: Option<Directory>, job: Job, outcome: Outcome)
    ensures var (_, target', job') := Effect(run, target, job, outcome);
            !job.Handling? ==> target' == target && !job'.Handling?
  {
    hide AdvanceStage, Assets, Apply, PublishPlan;
  }

  /** And if no step raises after taking effect, the files stay in place from then on. */
  lemma {:induction false} PublishedStaysIntact(w: World, events: seq<Event>)
    requires Initial(w) && ExclusiveThroughout(w, events)
    requires forall e :: e in events ==> !(e.Go? && e.outcome == RaisesAfter)
    ensures Settled(After(w, events))
  {
    if events != [] {
      var shorter := events[..|events| - 1];
      forall k | 0 <= k <= |shorter| ensures Exclusive(After(w, shorter[..k])) {
        assert shorter[..k] == events[..k];
      }
      PublishedStaysIntact(w, shorter);
      AlwaysHolding(w, shorter);
      AlwaysBacked(w, shorter);
      assert shorter[..|shorter|] == shorter;
      hide Exclusive, AllHolding, Step, AllBacked;
      assert Exclusive(After(w, shorter));
      StepSettled(After(w, shorter), events[|events| - 1]);
    }
  }
}
