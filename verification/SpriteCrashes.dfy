/** Reviews on the web page and rejections, taken to their end and cut short: the histories behind
    what can still be completed after a crash. */
module SpriteCrashes {
  import opened Bags
  import opened SpriteRun
  import opened SpritePublication
  import opened SpriteReview
  import opened SpriteHistories

  // ---------------------------------------------------------------- a review on the web page

  /** The page finds the image it was shown and the screenshot on file. */
  ghost predicate Showing(run: Run, form: Form, shot: Content) {
    && run.state in {AutoQcPassed, CandidateReady} && AllNine(form.checks)
    && ReadArtifact(run, Texture) == Ok(form.texture) && Screened(run, shot)
  }

  lemma WebLooks(run: Run, target: Option<Directory>, form: Form, shot: Content)
    requires Showing(run, form, shot)
    ensures var seen := run.state;
            && Goes(run, target, Approving(WebLoad(form)), run, target, Approving(WebShot(form, seen)))
            && Goes(run, target, Approving(WebShot(form, seen)), run, target, Approving(WebEvidence(form, seen, shot)))
  {
    hide ReviewPlan, PublishPlan, Apply, AllNine;
  }

  /** Stored evidence that is this reviewer's is taken over, whenever it was written. */
  lemma WebTakesOver(run: Run, target: Option<Directory>, form: Form, seen: RunState, shot: Content)
    requires PhaserEvidence in run.registered && PhaserEvidence in run.files
    requires run.files[PhaserEvidence].Reviewed? && run.files[PhaserEvidence].reviewer == form.reviewer
    requires run.files[PhaserEvidence].render == Some(shot)
    ensures Goes(run, target, Approving(WebEvidence(form, seen, shot)), run, target, Approving(WebAdvance(form, seen)))
  {
    hide ReviewPlan, PublishPlan, Apply;
  }

  /** Evidence not yet named by the manifest is written, which the same bytes allow, and named. */
  lemma WebWrites(run: Run, target: Option<Directory>, form: Form, seen: RunState, shot: Content)
    requires PhaserEvidence !in run.registered && !IsTerminal(run.state)
    requires PhaserEvidence in run.files ==> run.files[PhaserEvidence] == Reviewed(form.reviewer, Some(shot), form.at)
    ensures var evidence := Approving(WebEvidence(form, seen, shot));
            var write, name := Approving(WebEvidenceWrite(form, seen, shot)), Approving(WebEvidenceName(form, seen));
            var filed := WithFile(run, PhaserEvidence, Reviewed(form.reviewer, Some(shot), form.at));
            && Goes(run, target, evidence, run, target, write)
            && Goes(run, target, write, filed, target, name)
            && Goes(filed, target, name, Register(filed, PhaserEvidence), target, Approving(WebAdvance(form, seen)))
  {
    hide ReviewPlan, PublishPlan, AdvanceStage;
  }

  lemma WebAdvances(run: Run, target: Option<Directory>, form: Form)
    requires run.claim.None?
    ensures run.state == AutoQcPassed && Candidate !in run.completed ==>
              Goes(run, target, Approving(WebAdvance(form, AutoQcPassed)),
                   Candidates(run), target, Approving(WebAdvance(form, CandidateReady)))
    ensures run.state == CandidateReady && PhaserReview !in run.completed ==>
              Goes(run, target, Approving(WebAdvance(form, CandidateReady)),
                   PastReview(run), target, Approving(WebAdvance(form, PhaserReviewed)))
  {
    hide ReviewPlan, PublishPlan, ReadArtifact;
  }

  function PastReview(run: Run): Run {
    run.(state := PhaserReviewed, completed := run.completed + {PhaserReview}, failed := false)
  }

  /** The page up to the point where the evidence on file is named by the manifest. */
  lemma WebReachesEvidence(w: World, form: Form, shot: Content) returns (events: seq<Event>, run: Run)
    requires |w.jobs| >= 1 && w.jobs[0].Idle? && Showing(w.run, form, shot) && PhaserEvidence in w.run.files
    requires w.run.files[PhaserEvidence].Reviewed? && w.run.files[PhaserEvidence].reviewer == form.reviewer
    requires w.run.files[PhaserEvidence].render == Some(shot)
    requires PhaserEvidence in w.run.registered || w.run.files[PhaserEvidence].at == form.at
    ensures run == Register(w.run, PhaserEvidence)
    ensures After(w, events) == With(w, run, w.target, 0, Approving(WebAdvance(form, w.run.state)))
    ensures forall e :: e in events && e.Begin? ==> e.job == Approving(WebLoad(form))
  {
    var found, target, seen := w.run, w.target, w.run.state;
    var load, look := Approving(WebLoad(form)), Approving(WebShot(form, seen));
    var evidence, advance := Approving(WebEvidence(form, seen, shot)), Approving(WebAdvance(form, seen));
    run := Register(found, PhaserEvidence);
    WebLooks(found, target, form, shot);
    Opens(w, 0, load);
    hide After, Goes, Showing;
    events := Advances(w, [Begin(0, load)], 0, found, target, load, found, target, look);
    events := Advances(w, events, 0, found, target, look, found, target, evidence);
    if PhaserEvidence in found.registered {
      assert run == found;
      WebTakesOver(found, target, form, seen, shot);
      events := Advances(w, events, 0, found, target, evidence, found, target, advance);
    } else {
      NotTerminal(found, form, shot);
      WebWrites(found, target, form, seen, shot);
      assert WithFile(found, PhaserEvidence, Reviewed(form.reviewer, Some(shot), form.at)) == found;
      var write, name := Approving(WebEvidenceWrite(form, seen, shot)), Approving(WebEvidenceName(form, seen));
      events := Advances(w, events, 0, found, target, evidence, found, target, write);
      events := Advances(w, events, 0, found, target, write, found, target, name);
      events := Advances(w, events, 0, found, target, name, run, target, advance);
    }
  }

  lemma NotTerminal(run: Run, form: Form, shot: Content)
    requires Showing(run, form, shot)
    ensures !IsTerminal(run.state)
  {
  }

  /** The review completed on the web page. */
  lemma WebReviewEnds(w: World, form: Form, shot: Content) returns (events: seq<Event>)
    requires |w.jobs| >= 1 && w.jobs[0].Idle? && Showing(w.run, form, shot) && PhaserEvidence in w.run.files
    requires w.run.files[PhaserEvidence].Reviewed? && w.run.files[PhaserEvidence].reviewer == form.reviewer
    requires w.run.files[PhaserEvidence].render == Some(shot)
    requires PhaserEvidence in w.run.registered || w.run.files[PhaserEvidence].at == form.at
    requires w.run.claim.None? && PhaserReview !in w.run.completed
    requires w.run.state == AutoQcPassed ==> Candidate !in w.run.completed
    ensures After(w, events).run.state == PhaserReviewed
    ensures forall e :: e in events && e.Begin? ==> e.job == Approving(WebLoad(form))
  {
    var run;
    assert w.run.state in {AutoQcPassed, CandidateReady};
    hide After, Goes, Showing;
    events, run := WebReachesEvidence(w, form, shot);
    if run.state == AutoQcPassed {
      WebAdvances(run, w.target, form);
      events := Advances(w, events, 0, run, w.target, Approving(WebAdvance(form, AutoQcPassed)),
                         Candidates(run), w.target, Approving(WebAdvance(form, CandidateReady)));
      run := Candidates(run);
    }
    WebAdvances(run, w.target, form);
    events := Advances(w, events, 0, run, w.target, Approving(WebAdvance(form, CandidateReady)),
                       PastReview(run), w.target, Approving(WebAdvance(form, PhaserReviewed)));
  }

  // ---------------------------------------------------------------- a web review cut short

  lemma ShotGoes(run: Run, target: Option<Directory>, form: Form)
    requires run.state == AutoQcPassed && AllNine(form.checks) && ReadArtifact(run, Texture) == Ok(form.texture)
    requires SCREENSHOT !in run.files && SCREENSHOT !in run.registered
    ensures var filed := WithFile(run, SCREENSHOT, form.shot);
            var look := Approving(WebShot(form, AutoQcPassed));
            var write, name := Approving(WebShotWrite(form, AutoQcPassed)), Approving(WebShotName(form, AutoQcPassed));
            && Goes(run, target, Approving(WebLoad(form)), run, target, look)
            && Goes(run, target, look, run, target, write)
            && Goes(run, target, write, filed, target, name)
            && Goes(filed, target, name, Register(filed, SCREENSHOT), target,
                    Approving(WebEvidence(form, AutoQcPassed, form.shot)))
  {
    hide ReviewPlan, PublishPlan, AdvanceStage, AllNine;
  }

  function Pictured(run: Run, form: Form): Run { Register(WithFile(run, SCREENSHOT, form.shot), SCREENSHOT) }

  /** The page up to the point where its screenshot is stored. */
  lemma WebPictures(w: World, form: Form) returns (events: seq<Event>)
    requires |w.jobs| >= 1 && w.jobs[0].Idle? && w.run.state == AutoQcPassed
    requires AllNine(form.checks) && ReadArtifact(w.run, Texture) == Ok(form.texture)
    requires SCREENSHOT !in w.run.files && SCREENSHOT !in w.run.registered
    ensures After(w, events)
         == With(w, Pictured(w.run, form), w.target, 0, Approving(WebEvidence(form, AutoQcPassed, form.shot)))
  {
    var target, run := w.target, w.run;
    var load, look := Approving(WebLoad(form)), Approving(WebShot(form, AutoQcPassed));
    var write, name := Approving(WebShotWrite(form, AutoQcPassed)), Approving(WebShotName(form, AutoQcPassed));
    var filed := WithFile(run, SCREENSHOT, form.shot);
    ShotGoes(run, target, form);
    Opens(w, 0, load);
    hide After, Goes, WithFile, Register;
    events := Advances(w, [Begin(0, load)], 0, run, target, load, run, target, look);
    events := Advances(w, events, 0, run, target, look, run, target, write);
    events := Advances(w, events, 0, run, target, write, filed, target, name);
    events := Advances(w, events, 0, filed, target, name, Pictured(run, form), target,
                       Approving(WebEvidence(form, AutoQcPassed, form.shot)));
  }

  /** The run with the web page's evidence on file. */
  function WebFiled(run: Run, form: Form): Run {
    WithFile(Pictured(run, form), PhaserEvidence, Reviewed(form.reviewer, Some(form.shot), form.at))
  }

  lemma WebCutShort(w: World, form: Form, named: bool) returns (events: seq<Event>)
    requires |w.jobs| >= 1 && w.jobs[0].Idle? && w.run.state == AutoQcPassed
    requires AllNine(form.checks) && ReadArtifact(w.run, Texture) == Ok(form.texture)
    requires SCREENSHOT !in w.run.files && SCREENSHOT !in w.run.registered
    requires PhaserEvidence !in w.run.files && PhaserEvidence !in w.run.registered
    ensures var filed := WebFiled(w.run, form);
            After(w, events) == w.(run := if named then Register(filed, PhaserEvidence) else filed)
  {
    var target, run, filed := w.target, Pictured(w.run, form), WebFiled(w.run, form);
    var evidence := Approving(WebEvidence(form, AutoQcPassed, form.shot));
    var write, name := Approving(WebEvidenceWrite(form, AutoQcPassed, form.shot)),
        Approving(WebEvidenceName(form, AutoQcPassed));
    assert run.state == AutoQcPassed;
    WebWrites(run, target, form, AutoQcPassed, form.shot);
    hide After, Goes, WithFile, Register, Pictured, AllNine;
    events := WebPictures(w, form);
    events := Advances(w, events, 0, run, target, evidence, run, target, write);
    events := Advances(w, events, 0, run, target, write, filed, target, name);
    if named {
      events := Advances(w, events, 0, filed, target, name, Register(filed, PhaserEvidence), target,
                         Approving(WebAdvance(form, AutoQcPassed)));
    }
    Then(w, events, Crash(0));
    events := events + [Crash(0)];
    assert w.jobs[0 := Idle] == w.jobs;
  }

  /** A web review dies after its evidence is on file, named by the manifest or not. */
  lemma WebReviewDies(w: World, form: Form, named: bool) returns (events: seq<Event>)
    requires Initial(w) && |w.jobs| >= 1 && AllNine(form.checks)
    ensures var now := After(w, events);
            && now.jobs == w.jobs && now.run.state == AutoQcPassed && PhaserEvidence in now.run.files
            && now.run.files[PhaserEvidence] == Reviewed(form.reviewer, Some(form.shot), form.at)
            && (PhaserEvidence in now.run.registered <==> named)
  {
    var ops := Generates(w.run, form.texture, Bytes([1]));
    WorkerRuns(w, ops);
    var made := w.(run := ApplyAll(w.run, ops));
    assert ReadArtifact(made.run, Texture) == Ok(form.texture);
    hide After, ApplyAll;
    var second := WebCutShort(made, form, named);
    AfterAfter(w, Working(ops), second);
    events := Working(ops) + second;
  }

  // ---------------------------------------------------------------- rejection

  /** Nothing is in the way of this rejection: no other one is on file. */
  ghost predicate Rejectable(run: Run, why: string, evidence: Content) {
    && run.state in {AutoQcPassed, CandidateReady, PhaserReviewed} && run.claim.None? && Quarantine !in run.completed
    && 1 <= |why| <= 1000
    && (RejectionEvidence in run.files ==> run.files[RejectionEvidence] == evidence)
  }

  function RejectedRun(run: Run): Run {
    run.(state := Quarantined, completed := run.completed + {Quarantine}, failed := true)
  }

  lemma RejectionLoads(run: Run, target: Option<Directory>, who: string, why: string, at: int)
    requires Rejectable(run, why, RejectedFor(who, why, at))
    ensures Goes(run, target, Reviewing(RejectLoad(who, why, at)),
                 run, target, Reviewing(RejectWrite(RejectedFor(who, why, at))))
  {
    hide WebPlan, PublishPlan, ReadArtifact, Assets, QcPassed, Apply;
  }

  lemma RejectionGoes(run: Run, target: Option<Directory>, evidence: Content, why: string)
    requires Rejectable(run, why, evidence)
    ensures var filed := WithFile(run, RejectionEvidence, evidence);
            var named := Register(filed, RejectionEvidence);
            && Goes(run, target, Reviewing(RejectWrite(evidence)), filed, target, Reviewing(RejectName))
            && Goes(filed, target, Reviewing(RejectName), named, target, Reviewing(RejectAdvance))
  {
    hide WebPlan, PublishPlan, ReadArtifact, Assets, QcPassed, AdvanceStage;
  }

  lemma RejectionCheckpoints(run: Run, target: Option<Directory>)
    requires run.state in {AutoQcPassed, CandidateReady, PhaserReviewed} && run.claim.None?
             && Quarantine !in run.completed
    ensures Goes(run, target, Reviewing(RejectAdvance), RejectedRun(run), target, Idle)
  {
    hide WebPlan, PublishPlan, ReadArtifact, Assets, QcPassed;
  }

  /** The rejection up to its checkpoint, or through it. */
  lemma Rejects(w: World, who: string, why: string, at: int, wholly: bool) returns (events: seq<Event>)
    requires |w.jobs| >= 1 && w.jobs[0].Idle? && Rejectable(w.run, why, RejectedFor(who, why, at))
    ensures var named := Register(WithFile(w.run, RejectionEvidence, RejectedFor(who, why, at)), RejectionEvidence);
            After(w, events) == w.(run := if wholly then RejectedRun(named) else named)
    ensures forall e :: e in events ==> !e.Worker? && (e.Begin? ==> e.job == Reviewing(RejectLoad(who, why, at)))
  {
    var run, target, evidence := w.run, w.target, RejectedFor(who, why, at);
    var load, write := Reviewing(RejectLoad(who, why, at)), Reviewing(RejectWrite(evidence));
    var filed := WithFile(run, RejectionEvidence, evidence);
    var named := Register(filed, RejectionEvidence);
    RejectionLoads(run, target, who, why, at);
    RejectionGoes(run, target, evidence, why);
    RejectionCheckpoints(named, target);
    Opens(w, 0, load);
    hide After, Goes, WithFile, Register, RejectedRun, Rejectable;
    events := Advances(w, [Begin(0, load)], 0, run, target, load, run, target, write);
    events := Advances(w, events, 0, run, target, write, filed, target, Reviewing(RejectName));
    events := Advances(w, events, 0, filed, target, Reviewing(RejectName), named, target, Reviewing(RejectAdvance));
    if wholly {
      events := Advances(w, events, 0, named, target, Reviewing(RejectAdvance), RejectedRun(named), target, Idle);
    } else {
      Then(w, events, Crash(0));
      events := events + [Crash(0)];
    }
    assert w.jobs[0 := Idle] == w.jobs;
  }

  /** A rejection dies after its evidence is on file, and the run is approved all the same. */
  lemma RejectedYetApproved(w: World, who: string, why: string, at: int) returns (dies: seq<Event>, later: seq<Event>)
    requires Initial(w) && |w.jobs| >= 1 && 1 <= |why| <= 1000
    ensures var now := After(w, dies);
            && now.jobs == w.jobs && now.run.state == PhaserReviewed
            && RejectionEvidence in now.run.files && now.run.files[RejectionEvidence] == RejectedFor(who, why, at)
    ensures After(After(w, dies), later).run.state == HumanApproved
  {
    var ops := Generates(w.run, Bytes([0]), Bytes([1]));
    WorkerRuns(w, ops);
    var run := ApplyAll(w.run, ops);
    var made := w.(run := run);
    RejectionLeavesApproval(run, who, why, at);
    hide After, ApplyAll, Generated, Reviewable, Approvable, Rejectable, ReviewedRun, ApprovedRun, Candidates;
    var second := FirstReviewEnds(made, "reviewer", 0);
    var reviewed := made.(run := ReviewedRun(Candidates(run), "reviewer", 0));
    var third := Rejects(reviewed, who, why, at, false);
    AfterAfter(w, Working(ops), second);
    AfterAfter(w, Working(ops) + second, third);
    dies := Working(ops) + second + third;
    later := Approves(After(w, dies), "reviewer", ALL_NINE, 0);
  }

  lemma RejectionLeavesApproval(run: Run, who: string, why: string, at: int)
    requires Generated(run, Bytes([0]), Bytes([1])) && 1 <= |why| <= 1000
    ensures run.state == AutoQcPassed && Reviewable(run, "reviewer", 0) && Candidate !in run.completed
    ensures var reviewed := ReviewedRun(Candidates(run), "reviewer", 0);
            var evidence := RejectedFor(who, why, at);
            var named := Register(WithFile(reviewed, RejectionEvidence, evidence), RejectionEvidence);
            && Rejectable(reviewed, why, evidence) && Approvable(named, Approved("reviewer", ALL_NINE, 0))
            && named.state == PhaserReviewed
            && RejectionEvidence in named.files && named.files[RejectionEvidence] == evidence
            && ApprovedRun(named, "reviewer", ALL_NINE, 0).state == HumanApproved
  {
  }
}
