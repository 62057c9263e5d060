/** What can no longer happen to a sprite run, on any history: a review, an approval or a rejection
    after a crash left its evidence on file, and anything to a directory left half deleted. */
module SpriteStuck {
  import opened Bags
  import opened SpriteRun
  import opened SpritePublication
  import opened SpriteReview
  import opened SpriteHistories
  import opened SpriteCrashes

  /** Every command begun is one of `openings`. */
  ghost predicate OnlyOpens(events: seq<Event>, openings: iset<Job>) {
    forall e :: e in events && e.Begin? ==> e.job in openings
  }

  predicate AllIdle(w: World) { forall i :: 0 <= i < |w.jobs| ==> w.jobs[i].Idle? }

  lemma OnlyAdvanceCompletes(run: Run, op: StoreOp, stage: Stage)
    requires Apply(run, op).Ok? && stage !in run.completed && !stage.Anchor? && !stage.Strip?
    ensures stage in Apply(run, op).value.completed ==> op.Advance? && op.stage == stage
  {
  }

  // ---------------------------------------------------------------- Phaser review after a crash

  /** A review on file: its evidence, whether the manifest names it, and the texture beside it. */
  datatype Filed = Filed(evidence: Content, named: bool, texture: Content)

  ghost predicate HasReview(run: Run, f: Filed) {
    && PhaserEvidence in run.files && run.files[PhaserEvidence] == f.evidence && f.evidence.Reviewed?
    && (PhaserEvidence in run.registered <==> f.named)
    && ReadArtifact(run, Texture) == Ok(f.texture) && PhaserReview !in run.completed
  }

  /** The web page takes stored evidence of the same reviewer over.  Evidence the manifest does not
      name yet it writes again, and only the same time makes the same bytes. */
  predicate TakesOver(form: Form, f: Filed)
  {
    && f.evidence.Reviewed? && form.reviewer == f.evidence.reviewer && f.evidence.render.Some?
    && (f.named || form.at == f.evidence.at)
  }

  /** The openings that can complete the stored review: the same review on the command line, or a
      submission on the web page that shows the stored texture and takes the evidence over. */
  predicate Redoes(job: Job, f: Filed)
  {
    match job
    case Reviewing(PhaserLoad(who, at)) => Reviewed(who, None, at) == f.evidence
    case Approving(WebLoad(form)) => AllNine(form.checks) && form.texture == f.texture && TakesOver(form, f)
    case _ => false
  }

  /** The command cannot complete the stored review, and has not got to it. */
  ghost predicate NoReview(job: Job, f: Filed)
  {
    match job
    case Reviewing(step) =>
      && (step.PhaserLoad? || step.PhaserCandidate? || step.PhaserWrite? ==>
          Reviewed(step.reviewer, None, step.at) != f.evidence)
      && !step.PhaserName? && !step.PhaserAdvance?
    case Approving(step) =>
      && !step.WebEvidenceName? && !step.WebAdvance?
      && if step.WebLoad? then !Redoes(job, f) else !TakesOver(step.form, f)
    case _ => true
  }

  lemma NoReviewPlan(run: Run, target: Option<Directory>, job: Job, f: Filed)
    requires Backed(run, job) && HasReview(run, f) && NoReview(job, f)
    ensures var plan := NextPlan(run, target, job);
            && NoReview(plan.otherwise, f)
            && (plan.op.None? || Apply(run, plan.op.value).Ok? ==> NoReview(plan.next, f))
            && plan.op != Some(Name(PhaserEvidence))
            && plan.op != Some(Advance(PhaserReview, false)) && plan.op != Some(Advance(PhaserReview, true))
  {
    hide Assets, QcPassed, AllNine, MayStart, MatchesRecord, Expected, AdvanceStage;
    match job
    case Handling(_) => hide Apply;
    case _ =>
  }

  /** An operation that neither names the evidence nor checkpoints the review. */
  lemma ReviewStays(run: Run, op: StoreOp, f: Filed)
    requires HasReview(run, f) && WellFormed(run) && Apply(run, op).Ok? && op != Name(PhaserEvidence)
    requires op.Advance? ==> op.stage != PhaserReview
    requires Grows(run, Apply(run, op).value)
    ensures HasReview(Apply(run, op).value, f)
  {
    OnlyAdvanceCompletes(run, op, PhaserReview);
    if !f.named {
      OnlyNameRegisters(run, op, PhaserEvidence);
    }
    hide Apply;
  }

  lemma OnlyNameRegisters(run: Run, op: StoreOp, path: Path)
    requires Apply(run, op).Ok? && path !in run.registered
    ensures path in Apply(run, op).value.registered ==> op == Name(path)
  {
  }

  /** Whatever else the command does, it neither replaces the evidence nor completes the review. */
  lemma NoReviewStays(run: Run, target: Option<Directory>, job: Job, outcome: Outcome, f: Filed)
    requires Documented(run) && Backed(run, job) && HasReview(run, f) && NoReview(job, f)
    ensures var (run', _, job') := Effect(run, target, job, outcome);
            HasReview(run', f) && NoReview(job', f)
  {
    hide NextPlan, Backed, Apply, NoReview, HasReview, Sound, InOrder, Founded;
    EffectDocumented(run, target, job, outcome);
    NoReviewPlan(run, target, job, f);
    var plan := NextPlan(run, target, job);
    if outcome != RaisesBefore && plan.op.Some? && Apply(run, plan.op.value).Ok? {
      ReviewStays(run, plan.op.value, f);
    }
  }

  lemma StepNoReview(w: World, e: Event, openings: iset<Job>, f: Filed)
    requires AllBacked(w) && HasReview(w.run, f) && (e.Begin? ==> e.job in openings)
    requires forall job :: job in openings ==> !Redoes(job, f)
    requires forall i :: 0 <= i < |w.jobs| ==> NoReview(w.jobs[i], f)
    ensures HasReview(Step(w, e).run, f) && forall i :: 0 <= i < |Step(w, e).jobs| ==> NoReview(Step(w, e).jobs[i], f)
  {
    hide Effect, Backed, Sound, InOrder, Founded, Apply, Redoes, HasReview, NoReview, Grows;
    FreshIsNoReview(if e.Begin? then e.job else Idle, f);
    FreshIsNoReview(Idle, f);
    if e.Go? && e.i < |w.jobs| {
      NoReviewStays(w.run, w.target, w.jobs[e.i], e.outcome, f);
    } else if e.Worker? && WorkerOp(e.op) && Apply(w.run, e.op).Ok? {
      StepBacked(w, e);
      ReviewStays(w.run, e.op, f);
    }
  }

  lemma FreshIsNoReview(job: Job, f: Filed)
    ensures Opening(job) ==> (NoReview(job, f) <==> !Redoes(job, f))
    ensures NoReview(Idle, f)
  {
  }

  lemma {:induction false} NeverReviewed(w: World, events: seq<Event>, openings: iset<Job>, f: Filed)
    requires AllBacked(w) && AllIdle(w) && HasReview(w.run, f) && OnlyOpens(events, openings)
    requires forall job :: job in openings ==> !Redoes(job, f)
    ensures AllBacked(After(w, events)) && HasReview(After(w, events).run, f)
    ensures forall i :: 0 <= i < |After(w, events).jobs| ==> NoReview(After(w, events).jobs[i], f)
  {
    hide AllBacked, Step, HasReview, NoReview, Redoes;
    if events == [] {
      FreshIsNoReview(Idle, f);
    } else {
      var front := events[..|events| - 1];
      NeverReviewed(w, front, openings, f);
      StepBacked(After(w, front), events[|events| - 1]);
      StepNoReview(After(w, front), events[|events| - 1], openings, f);
    }
  }

  /** The review on file, as it stands. */
  function FiledReview(run: Run): Filed
    requires PhaserEvidence in run.files && Texture in run.files
  {
    Filed(run.files[PhaserEvidence], PhaserEvidence in run.registered, run.files[Texture])
  }

  /** A review, on the command line or the web page, died with its evidence on file and its
      checkpoint still to come.  From then on some history gets the run past review if and only if
      some opening repeats the same reviewer and time on the command line, for evidence written
      there; or, for evidence written by the web page, is a submission there by the same reviewer,
      with the stored texture and all nine checks, at any time if the manifest names the evidence
      and at the very same time if it does not. */
  lemma ReviewAfterCrashIff(w: World, before: seq<Event>, openings: iset<Job>)
    requires Initial(w) && |w.jobs| >= 1
    requires var now := After(w, before);
             AllIdle(now) && now.run.state in {AutoQcPassed, CandidateReady} && PhaserEvidence in now.run.files
    ensures var run := After(w, before).run;
            && Texture in run.files && run.files[PhaserEvidence].Reviewed?
            && ((exists events ::
                   OnlyOpens(events, openings) && After(After(w, before), events).run.state == PhaserReviewed)
                <==> exists job :: job in openings && Redoes(job, FiledReview(run)))
  {
    hide After, Initial, Sound, Redoes;
    var now := After(w, before);
    AlwaysBacked(w, before);
    JobsKept(w, before);
    ReadyForReview(now);
    var f := FiledReview(now.run);
    if job :| job in openings && Redoes(job, f) {
      var events := RedoesIt(now, job);
      assert OnlyOpens(events, openings);
    } else {
      forall events | OnlyOpens(events, openings) ensures After(now, events).run.state != PhaserReviewed {
        NeverReviewed(now, events, openings, f);
      }
    }
  }

  /** What a stored review that is not checkpointed yet says of the run. */
  lemma ReadyForReview(w: World)
    requires AllBacked(w) && w.run.state in {AutoQcPassed, CandidateReady} && PhaserEvidence in w.run.files
    ensures Texture in w.run.files && HasReview(w.run, FiledReview(w.run)) && w.run.claim.None?
    ensures w.run.state == AutoQcPassed ==> Candidate !in w.run.completed
    ensures var evidence := w.run.files[PhaserEvidence];
            && (evidence.render.None? ==> Reviewable(w.run, evidence.reviewer, evidence.at))
            && (evidence.render.Some? ==> Screened(w.run, evidence.render.value))
  {
  }

  lemma RedoesIt(w: World, job: Job) returns (events: seq<Event>)
    requires |w.jobs| >= 1 && w.jobs[0].Idle? && AllBacked(w)
    requires w.run.state in {AutoQcPassed, CandidateReady} && PhaserEvidence in w.run.files && Texture in w.run.files
    requires Redoes(job, FiledReview(w.run))
    ensures After(w, events).run.state == PhaserReviewed && forall e :: e in events && e.Begin? ==> e.job == job
  {
    hide After, Sound, Reviewable, AllNine;
    ReadyForReview(w);
    match job
    case Reviewing(step) =>
      if w.run.state == AutoQcPassed {
        events := FirstReviewEnds(w, step.reviewer, step.at);
      } else {
        events := ReviewEnds(w, step.reviewer, step.at);
      }
    case Approving(step) => events := WebReviewEnds(w, step.form, w.run.files[PhaserEvidence].render.value);
  }

  // ---------------------------------------------------------------- approval after a crash

  /** The approval the stored one could be completed by, from the web page. */
  ghost predicate Submits(form: Form, evidence: Content) { Approved(form.reviewer, form.checks, form.at) == evidence }

  ghost predicate NoApproval(run: Run, job: Job, evidence: Content) {
    match job
    case Reviewing(step) =>
      && (step.ApproveLoad? ==> Approved(step.reviewer, step.checks, step.at) != evidence)
      && (step.ApproveWrite? ==> step.evidence != evidence)
      && !step.ApproveName? && !step.ApproveAdvance?
    case Approving(step) =>
      Submits(step.form, evidence) ==>
        && !Agrees(run, step.form) && !step.WebEvidenceWrite? && !step.WebEvidenceName? && !step.WebAdvance?
        && (step.WebLoad? || ReadArtifact(run, Texture) == Ok(step.form.texture))
    case _ => true
  }

  ghost predicate HasApproval(run: Run, evidence: Content) {
    && ApprovalEvidence in run.files && run.files[ApprovalEvidence] == evidence && HumanApproval !in run.completed
    && PhaserEvidence in run.registered && Texture in run.registered
  }

  lemma NoApprovalPlan(run: Run, target: Option<Directory>, job: Job, evidence: Content)
    requires Documented(run) && Backed(run, job) && HasApproval(run, evidence) && NoApproval(run, job, evidence)
    ensures var plan := NextPlan(run, target, job);
            && NoApproval(run, plan.otherwise, evidence)
            && (plan.op.None? || Apply(run, plan.op.value).Ok? ==> NoApproval(run, plan.next, evidence))
            && plan.op != Some(Advance(HumanApproval, false)) && plan.op != Some(Advance(HumanApproval, true))
  {
    hide Assets, QcPassed, AllNine, MayStart, MatchesRecord, Expected, AdvanceStage, Sound, InOrder, GoodApproval;
    match job
    case Handling(_) => hide Apply;
    case Approving(_) => hide Apply;
    case _ =>
  }

  /** Evidence and images on file stay, so what the web page compares stays. */
  lemma NoApprovalGrows(before: Run, after: Run, job: Job, evidence: Content)
    requires Grows(before, after) && WellFormed(before) && HasApproval(before, evidence)
             && NoApproval(before, job, evidence)
    ensures NoApproval(after, job, evidence)
  {
  }

  lemma NoApprovalStays(run: Run, target: Option<Directory>, job: Job, outcome: Outcome, evidence: Content)
    requires Documented(run) && Backed(run, job) && HasApproval(run, evidence) && NoApproval(run, job, evidence)
    ensures var (run', _, job') := Effect(run, target, job, outcome);
            HasApproval(run', evidence) && NoApproval(run', job', evidence)
  {
    EffectDocumented(run, target, job, outcome);
    NoApprovalPlan(run, target, job, evidence);
    var plan := NextPlan(run, target, job);
    var (run', _, job') := Effect(run, target, job, outcome);
    if plan.op.Some? && Apply(run, plan.op.value).Ok? {
      OnlyAdvanceCompletes(run, plan.op.value, HumanApproval);
    }
    NoApprovalGrows(run, run', job', evidence);
    hide NextPlan, Backed, Apply, NoApproval, Sound, InOrder, GoodApproval, Screened;
  }

  lemma StepNoApproval(w: World, e: Event, openings: iset<Job>, evidence: Content)
    requires AllBacked(w) && HasApproval(w.run, evidence) && (e.Begin? ==> e.job in openings)
    requires forall job :: job in openings && Opening(job) ==> NoApproval(w.run, job, evidence)
    requires forall i :: 0 <= i < |w.jobs| ==> NoApproval(w.run, w.jobs[i], evidence)
    ensures HasApproval(Step(w, e).run, evidence)
    ensures forall i :: 0 <= i < |Step(w, e).jobs| ==> NoApproval(Step(w, e).run, Step(w, e).jobs[i], evidence)
    ensures forall job :: job in openings && Opening(job) ==> NoApproval(Step(w, e).run, job, evidence)
  {
    hide Effect, Backed, Sound, InOrder, NoApproval, Apply, Grows, WorkerOp, GoodApproval, Screened;
    StepBacked(w, e);
    var w' := Step(w, e);
    if e.Go? && e.i < |w.jobs| {
      NoApprovalStays(w.run, w.target, w.jobs[e.i], e.outcome, evidence);
    } else if e.Worker? && WorkerOp(e.op) && Apply(w.run, e.op).Ok? {
      WorkerKeepsApproval(w.run, e.op, evidence);
    }
    forall job | NoApproval(w.run, job, evidence) ensures NoApproval(w'.run, job, evidence) {
      NoApprovalGrows(w.run, w'.run, job, evidence);
    }
    IdleIsNoApproval(w'.run, evidence);
  }

  lemma IdleIsNoApproval(run: Run, evidence: Content)
    ensures NoApproval(run, Idle, evidence)
  {
  }

  lemma WorkerKeepsApproval(run: Run, op: StoreOp, evidence: Content)
    requires HasApproval(run, evidence) && WellFormed(run) && WorkerOp(op) && Apply(run, op).Ok?
    ensures HasApproval(Apply(run, op).value, evidence)
  {
    OnlyAdvanceCompletes(run, op, HumanApproval);
    hide AdvanceStage;
  }

  lemma {:induction false} NeverApproved(w: World, events: seq<Event>, openings: iset<Job>, evidence: Content)
    requires AllBacked(w) && AllIdle(w) && HasApproval(w.run, evidence) && OnlyOpens(events, openings)
    requires forall job :: job in openings && Opening(job) ==> NoApproval(w.run, job, evidence)
    ensures AllBacked(After(w, events)) && HasApproval(After(w, events).run, evidence)
    ensures forall job :: job in openings && Opening(job) ==> NoApproval(After(w, events).run, job, evidence)
    ensures forall i :: 0 <= i < |After(w, events).jobs| ==>
              NoApproval(After(w, events).run, After(w, events).jobs[i], evidence)
  {
    hide AllBacked, Step, HasApproval, NoApproval, Opening;
    if events == [] {
      IdleIsNoApproval(w.run, evidence);
    } else {
      var front := events[..|events| - 1];
      NeverApproved(w, front, openings, evidence);
      StepBacked(After(w, front), events[|events| - 1]);
      StepNoApproval(After(w, front), events[|events| - 1], openings, evidence);
    }
  }

  /** The openings that can complete the stored approval: the same approval on the command line,
      or from the web page with the image and the stored review in agreement. */
  ghost predicate Completing(run: Run, job: Job, evidence: Content) {
    match job
    case Reviewing(ApproveLoad(who, checks, at)) => Approved(who, checks, at) == evidence
    case Approving(WebLoad(form)) => Submits(form, evidence) && Agrees(run, form)
    case _ => false
  }

  lemma CompletingOrNot(run: Run, job: Job, evidence: Content)
    requires Opening(job)
    ensures Completing(run, job, evidence) <==> !NoApproval(run, job, evidence)
  {
  }

  /** An approval command, on the command line or the web page, died after its evidence was on
      file and before its checkpoint.  From then on the run is approved if and only if some later
      command submits the very same approval, the time included. */
  lemma ApprovalAfterCrashIff(w: World, before: seq<Event>, openings: iset<Job>, evidence: Content)
    requires Initial(w) && |w.jobs| >= 1
    requires var now := After(w, before);
             && AllIdle(now) && now.run.state == PhaserReviewed
             && ApprovalEvidence in now.run.files && now.run.files[ApprovalEvidence] == evidence
    ensures (exists events :: OnlyOpens(events, openings) && After(After(w, before), events).run.state == HumanApproved)
            <==> exists job :: job in openings && Completing(After(w, before).run, job, evidence)
  {
    hide After, Initial, Sound, Completing, NoApproval;
    var now := After(w, before);
    AlwaysBacked(w, before);
    JobsKept(w, before);
    ReadyForApproval(now, evidence);
    if job :| job in openings && Completing(now.run, job, evidence) {
      var events := Completes(now, job, evidence);
      assert OnlyOpens(events, openings);
    } else {
      forall job | job in openings && Opening(job) ensures NoApproval(now.run, job, evidence) {
        CompletingOrNot(now.run, job, evidence);
      }
      forall events | OnlyOpens(events, openings) ensures After(now, events).run.state != HumanApproved {
        NeverApproved(now, events, openings, evidence);
      }
    }
  }

  lemma ReadyForApproval(w: World, evidence: Content)
    requires AllBacked(w) && w.run.state == PhaserReviewed
    requires ApprovalEvidence in w.run.files && w.run.files[ApprovalEvidence] == evidence
    ensures Approvable(w.run, evidence) && HasApproval(w.run, evidence)
  {
  }

  lemma Completes(w: World, job: Job, evidence: Content) returns (events: seq<Event>)
    requires |w.jobs| >= 1 && w.jobs[0].Idle? && AllBacked(w) && Approvable(w.run, evidence)
             && PhaserEvidence in w.run.registered
    requires Completing(w.run, job, evidence)
    ensures After(w, events).run.state == HumanApproved && forall e :: e in events && e.Begin? ==> e.job == job
  {
    hide After, Approvable, Agrees, Sound;
    match job
    case Reviewing(step) => events := Approves(w, step.reviewer, step.checks, step.at);
    case Approving(step) => events := WebApproves(w, step.form);
  }

  // ---------------------------------------------------------------- rejection after a crash

  /** The worker quarantines nobody: who is quarantined was rejected. */
  ghost predicate OnlyRejected(events: seq<Event>) {
    forall e :: e in events && e.Worker? && e.op.Advance? ==> e.op.stage != Quarantine
  }

  ghost predicate HasRejection(run: Run, evidence: Content) {
    RejectionEvidence in run.files && run.files[RejectionEvidence] == evidence && Quarantine !in run.completed
  }

  /** The very same rejection. */
  predicate RejectsAgain(job: Job, evidence: Content) {
    match job
    case Reviewing(RejectLoad(who, why, at)) => RejectedFor(who, why, at) == evidence && 1 <= |why| <= 1000
    case _ => false
  }

  ghost predicate NoRejection(job: Job, evidence: Content) {
    job.Reviewing? ==>
      && (job.review.RejectLoad? ==> !RejectsAgain(job, evidence))
      && (job.review.RejectWrite? ==> job.review.evidence != evidence)
      && !job.review.RejectName? && !job.review.RejectAdvance?
  }

  lemma NoRejectionPlan(run: Run, target: Option<Directory>, job: Job, evidence: Content)
    requires HasRejection(run, evidence) && NoRejection(job, evidence)
    ensures var plan := NextPlan(run, target, job);
            && NoRejection(plan.otherwise, evidence)
            && (plan.op.None? || Apply(run, plan.op.value).Ok? ==> NoRejection(plan.next, evidence))
            && (plan.op.Some? && plan.op.value.Advance? ==> plan.op.value.stage != Quarantine)
  {
    hide Assets, QcPassed, AllNine, MayStart, MatchesRecord, Expected, AdvanceStage, ReadArtifact;
    match job
    case Handling(_) => hide Apply;
    case Approving(_) => hide Apply;
    case _ =>
  }

  lemma NoRejectionStays(run: Run, target: Option<Directory>, job: Job, outcome: Outcome, evidence: Content)
    requires Documented(run) && Backed(run, job) && HasRejection(run, evidence) && NoRejection(job, evidence)
    ensures var (run', _, job') := Effect(run, target, job, outcome);
            HasRejection(run', evidence) && NoRejection(job', evidence)
  {
    hide NextPlan, Backed, Apply, NoRejection, Documented;
    EffectDocumented(run, target, job, outcome);
    NoRejectionPlan(run, target, job, evidence);
    var plan := NextPlan(run, target, job);
    if plan.op.Some? && Apply(run, plan.op.value).Ok? {
      OnlyAdvanceCompletes(run, plan.op.value, Quarantine);
    }
  }

  lemma StepNoRejection(w: World, e: Event, openings: iset<Job>, evidence: Content)
    requires AllBacked(w) && HasRejection(w.run, evidence) && (e.Begin? ==> e.job in openings) && OnlyRejected([e])
    requires forall job :: job in openings ==> !RejectsAgain(job, evidence)
    requires forall i :: 0 <= i < |w.jobs| ==> NoRejection(w.jobs[i], evidence)
    ensures HasRejection(Step(w, e).run, evidence)
    ensures forall i :: 0 <= i < |Step(w, e).jobs| ==> NoRejection(Step(w, e).jobs[i], evidence)
  {
    hide Effect, Backed, Documented, Apply, RejectsAgain, NoRejection;
    FreshIsNoRejection(if e.Begin? then e.job else Idle, evidence);
    FreshIsNoRejection(Idle, evidence);
    assert e in [e];
    if e.Go? && e.i < |w.jobs| {
      NoRejectionStays(w.run, w.target, w.jobs[e.i], e.outcome, evidence);
    } else if e.Worker? && WorkerOp(e.op) && Apply(w.run, e.op).Ok? {
      StepBacked(w, e);
      OnlyAdvanceCompletes(w.run, e.op, Quarantine);
    }
  }

  lemma FreshIsNoRejection(job: Job, evidence: Content)
    ensures Opening(job) ==> (NoRejection(job, evidence) <==> !RejectsAgain(job, evidence))
    ensures NoRejection(Idle, evidence)
  {
  }

  lemma {:induction false} NeverRejected(w: World, events: seq<Event>, openings: iset<Job>, evidence: Content)
    requires AllBacked(w) && AllIdle(w) && HasRejection(w.run, evidence)
    requires OnlyOpens(events, openings) && OnlyRejected(events)
    requires forall job :: job in openings ==> !RejectsAgain(job, evidence)
    ensures AllBacked(After(w, events)) && HasRejection(After(w, events).run, evidence)
    ensures forall i :: 0 <= i < |After(w, events).jobs| ==> NoRejection(After(w, events).jobs[i], evidence)
  {
    hide AllBacked, Step, HasRejection, NoRejection, RejectsAgain;
    if events == [] {
      FreshIsNoRejection(Idle, evidence);
    } else {
      var front := events[..|events| - 1];
      NeverRejected(w, front, openings, evidence);
      StepBacked(After(w, front), events[|events| - 1]);
      StepNoRejection(After(w, front), events[|events| - 1], openings, evidence);
    }
  }

  /** A rejection died with its evidence on file and its checkpoint still to come.  From then on
      some rejection quarantines the run if and only if some opening is the very same rejection,
      reason and time included. */
  lemma RejectionAfterCrashIff(w: World, before: seq<Event>, openings: iset<Job>, evidence: Content)
    requires Initial(w) && |w.jobs| >= 1
    requires var now := After(w, before);
             && AllIdle(now) && now.run.state in {AutoQcPassed, CandidateReady, PhaserReviewed}
             && RejectionEvidence in now.run.files && now.run.files[RejectionEvidence] == evidence
    ensures (exists events :: OnlyOpens(events, openings) && OnlyRejected(events)
                && After(After(w, before), events).run.state == Quarantined)
            <==> exists job :: job in openings && RejectsAgain(job, evidence)
  {
    hide After, Initial, Sound, RejectsAgain;
    var now := After(w, before);
    AlwaysBacked(w, before);
    JobsKept(w, before);
    ReadyForRejection(now, evidence);
    if job :| job in openings && RejectsAgain(job, evidence) {
      var events := RejectsIt(now, job, evidence);
      assert OnlyOpens(events, openings) && OnlyRejected(events);
    } else {
      forall events | OnlyOpens(events, openings) && OnlyRejected(events)
        ensures After(now, events).run.state != Quarantined {
        NeverRejected(now, events, openings, evidence);
      }
    }
  }

  lemma ReadyForRejection(w: World, evidence: Content)
    requires AllBacked(w) && w.run.state in {AutoQcPassed, CandidateReady, PhaserReviewed}
    requires RejectionEvidence in w.run.files && w.run.files[RejectionEvidence] == evidence
    ensures HasRejection(w.run, evidence) && w.run.claim.None?
  {
  }

  lemma RejectsIt(w: World, job: Job, evidence: Content) returns (events: seq<Event>)
    requires |w.jobs| >= 1 && w.jobs[0].Idle? && w.run.state in {AutoQcPassed, CandidateReady, PhaserReviewed}
    requires w.run.claim.None? && HasRejection(w.run, evidence) && RejectsAgain(job, evidence)
    ensures After(w, events).run.state == Quarantined
    ensures forall e :: e in events ==> !e.Worker? && (e.Begin? ==> e.job == job)
  {
    hide After;
    events := Rejects(w, job.review.reviewer, job.review.reason, job.review.at, true);
  }

  // ---------------------------------------------------------------- a directory half deleted

  /** Some of the expected files are gone, and only commands that have yet to look are under way. */
  ghost predicate HalfGone(w: World, texture: Content, portrait: Content) {
    && Assets(w.run) == Some((texture, portrait)) && HalfRemoved(w.target, Expected(texture, portrait))
    && PublishStart in w.run.completed && !IsTerminal(w.run.state)
    && forall i :: 0 <= i < |w.jobs| && w.jobs[i].Handling? ==>
         w.jobs[i].step.PublishLoad? || w.jobs[i].step.RecoverLoad?
  }

  lemma NotExpected(target: Option<Directory>, texture: Content, portrait: Content)
    requires HalfRemoved(target, Expected(texture, portrait))
    ensures target.Some? && target != Some(Expected(texture, portrait))
  {
    StillThere(texture, portrait);
  }

  /** Neither publication nor recovery goes further than looking. */
  lemma LooksAndStops(run: Run, target: Option<Directory>, at: DirectoryStep, texture: Content, portrait: Content)
    requires Sound(run) && PublishStart in run.completed && (at.PublishLoad? || at.RecoverLoad?)
    requires Assets(run) == Some((texture, portrait)) && target.Some? && target != Some(Expected(texture, portrait))
    ensures PublishPlan(run, target, at) == Stop(target)
  {
    hide Expected, Assets;
  }

  lemma OthersKeepOut(run: Run, target: Option<Directory>, job: Job)
    requires !job.Handling?
    ensures var plan := NextPlan(run, target, job);
            && plan.target == target && !plan.next.Handling? && !plan.otherwise.Handling?
            && (plan.op.Some? ==> plan.op.value.Advance? ==> plan.op.value.stage !in {SpriteRun.Publish, Rollback})
  {
    hide PublishPlan;
  }

  lemma OnlyTwoStagesEnd(run: Run, op: StoreOp)
    requires Apply(run, op).Ok? && !IsTerminal(run.state)
             && (op.Advance? ==> op.stage !in {SpriteRun.Publish, Rollback})
    ensures !IsTerminal(Apply(run, op).value.state)
  {
  }

  lemma EffectHalfGone(
    run: Run, target: Option<Directory>, job: Job, outcome: Outcome, texture: Content, portrait: Content)
    requires Sound(run) && PublishStart in run.completed && !IsTerminal(run.state)
    requires Assets(run) == Some((texture, portrait)) && target.Some? && target != Some(Expected(texture, portrait))
    requires job.Handling? ==> job.step.PublishLoad? || job.step.RecoverLoad?
    ensures var (run', target', job') := Effect(run, target, job, outcome);
            target' == target && !job'.Handling? && !IsTerminal(run'.state)
  {
    if job.Handling? {
      LooksAndStops(run, target, job.step, texture, portrait);
    } else {
      OthersKeepOut(run, target, job);
      var plan := NextPlan(run, target, job);
      if plan.op.Some? && Apply(run, plan.op.value).Ok? {
        OnlyTwoStagesEnd(run, plan.op.value);
      }
    }
    hide Apply, Assets, Expected, Sound, ReviewPlan, WebPlan, PublishPlan, IsTerminal;
  }

  lemma StepHalfGone(w: World, e: Event, texture: Content, portrait: Content)
    requires AllBacked(w) && HalfGone(w, texture, portrait)
    ensures HalfGone(Step(w, e), texture, portrait) && Step(w, e).target == w.target
  {
    StepBacked(w, e);
    NotExpected(w.target, texture, portrait);
    ImagesStay(w.run, Step(w, e).run);
    StagesStay(w, e);
    if e.Go? && e.i < |w.jobs| {
      EffectHalfGone(w.run, w.target, w.jobs[e.i], e.outcome, texture, portrait);
    } else if e.Worker? && WorkerOp(e.op) && Apply(w.run, e.op).Ok? {
      OnlyTwoStagesEnd(w.run, e.op);
    }
    hide Effect, Apply, Assets, Expected, Sound, InOrder, Backed, IsTerminal, HalfRemoved;
  }

  lemma ImagesStay(before: Run, after: Run)
    requires Grows(before, after) && WellFormed(before)
    ensures Assets(before).Some? ==> Assets(after) == Assets(before)
  {
  }

  lemma StagesStay(w: World, e: Event)
    ensures w.run.completed <= Step(w, e).run.completed
  {
    hide NextPlan;
  }

  lemma {:induction false} StaysHalfGone(w: World, more: seq<Event>, texture: Content, portrait: Content)
    requires AllBacked(w) && HalfGone(w, texture, portrait)
    ensures AllBacked(After(w, more)) && HalfGone(After(w, more), texture, portrait)
            && After(w, more).target == w.target
  {
    hide AllBacked, HalfGone, Step;
    if more != [] {
      var front := more[..|more| - 1];
      StaysHalfGone(w, front, texture, portrait);
      StepBacked(After(w, front), more[|more| - 1]);
      StepHalfGone(After(w, front), more[|more| - 1], texture, portrait);
    }
  }

  /** A publication or a recovery died while deleting the directory.  From then on, whatever is
      run, the directory stays as it is, and the run is neither published nor rolled back. */
  lemma HalfRemovedForGood(w: World, before: seq<Event>, more: seq<Event>)
    requires Initial(w)
    requires var now := After(w, before);
             && now.run.state == Publishing && AllIdle(now) && Assets(now.run).Some?
             && HalfRemoved(now.target, ExpectedHere(Disk(now.run, now.target)))
    ensures var later := After(After(w, before), more);
            later.target == After(w, before).target && later.run.state != Published && later.run.state != RolledBack
  {
    hide After, Initial, Assets, Expected, HalfRemoved;
    var now := After(w, before);
    AlwaysBacked(w, before);
    var (texture, portrait) := Assets(now.run).value;
    StaysHalfGone(now, more, texture, portrait);
  }

  /** Such a crash exists: a publication fails at its last checkpoint and dies while cleaning up. */
  lemma HalfRemovedArises(w: World, texture: Content, portrait: Content) returns (events: seq<Event>)
    requires Initial(w) && |w.jobs| >= 1 && w.target.None?
    ensures var now := After(w, events);
            && now.run.state == Publishing && AllIdle(now) && Assets(now.run) == Some((texture, portrait))
            && HalfRemoved(now.target, ExpectedHere(Disk(now.run, now.target)))
  {
    hide After, Sound, AboutToFinish;
    var first := Approval(w, texture, portrait);
    var second := PublisherArrives(After(w, first));
    AfterAfter(w, first, second);
    var third := DiesCleaningUp(After(w, first + second), texture, portrait);
    AfterAfter(w, first + second, third);
    events := first + second + third;
  }

  lemma DiesCleaningUp(w: World, t: Content, p: Content) returns (events: seq<Event>)
    requires AboutToFinish(w, t, p)
    ensures var now := After(w, events);
            && now.run == w.run && now.run.state == Publishing && now.jobs == w.jobs[0 := Idle]
               && Assets(now.run) == Some((t, p))
            && HalfRemoved(now.target, Expected(t, p))
  {
    var d, undo := Expected(t, p), Handling(PublishUndo(t, p, true));
    CleaningGoes(w.run, t, p);
    DeletingGoes(w.run, t, p);
    FlightState(w.run, t, p);
    assert [] + [Go(0, RaisesBefore)] == [Go(0, RaisesBefore)];
    Then(w, [], Go(0, RaisesBefore));
    assert Assets(w.run) == Some((t, p));
    hide After, Goes, Expected, Partly, Effect, InFlight, Assets;
    events := [Go(0, RaisesBefore)];
    events := Advances(w, events, 0, w.run, Some(d), undo, w.run, Some(d), Handling(Delete(0)));
    events := Advances(w, events, 0, w.run, Some(d), Handling(Delete(0)), w.run, Some(Partly(d, 1)),
                       Handling(Delete(1)));
    Then(w, events, Crash(0));
    events := events + [Crash(0)];
  }

  lemma CleaningGoes(run: Run, t: Content, p: Content)
    ensures var d, undo := Some(Expected(t, p)), Handling(PublishUndo(t, p, true));
            && Effect(run, d, Handling(PublishFinish(t, p, true)), RaisesBefore) == (run, d, undo)
            && Goes(run, d, undo, run, d, Handling(Delete(0)))
  {
    hide WebPlan, ReviewPlan, Expected, Apply;
  }
}
