/** Histories that show what can happen to a sprite run: a run generated, approved and published,
    and a publication overtaken by a recovery. */
module SpriteHistories {
  import opened Bags
  import opened SpriteRun
  import opened SpritePublication
  import opened SpriteReview

  // ---------------------------------------------------------------- histories, step by step

  lemma {:induction false} AfterAfter(w: World, first: seq<Event>, second: seq<Event>)
    ensures After(w, first + second) == After(After(w, first), second)
  {
    if second == [] {
      assert first + second == first;
    } else {
      AfterAfter(w, first, second[..|second| - 1]);
      assert (first + second)[..|first + second| - 1] == first + second[..|second| - 1];
    }
  }

  /** The state a publication has reached just before its last checkpoint. */
  ghost predicate AboutToFinish(w: World, texture: Content, portrait: Content) {
    && |w.jobs| >= 1 && w.jobs[0] == Handling(PublishFinish(texture, portrait, true))
    && InFlight(w.run, texture, portrait) && w.target == Some(Expected(texture, portrait))
  }

  /** The world with one command replaced. */
  function With(w: World, run: Run, target: Option<Directory>, i: nat, job: Job): World
    requires i < |w.jobs|
  {
    World(run, target, w.jobs[i := job])
  }

  ghost predicate Goes(
    run: Run, target: Option<Directory>, job: Job, run': Run, target': Option<Directory>, job': Job) {
    Effect(run, target, job, Fine) == (run', target', job')
  }

  lemma Advances(w: World, events: seq<Event>, i: nat, run: Run, target: Option<Directory>, job: Job,
                 run': Run, target': Option<Directory>, job': Job) returns (more: seq<Event>)
    requires i < |w.jobs| && After(w, events) == With(w, run, target, i, job)
             && Goes(run, target, job, run', target', job')
    ensures more == events + [Go(i, Fine)] && After(w, more) == With(w, run', target', i, job')
  {
    hide After, Effect;
    more := events + [Go(i, Fine)];
    Then(w, events, Go(i, Fine));
  }

  lemma Opens(w: World, i: nat, job: Job)
    requires i < |w.jobs| && w.jobs[i].Idle? && Opening(job)
    ensures After(w, [Begin(i, job)]) == With(w, w.run, w.target, i, job)
  {
    Then(w, [], Begin(i, job));
    assert [] + [Begin(i, job)] == [Begin(i, job)];
  }

  lemma PublisherArrives(w: World) returns (events: seq<Event>)
    requires |w.jobs| >= 1 && w.jobs[0].Idle? && w.target.None? && Sound(w.run)
    requires w.run.state == HumanApproved && Assets(w.run).Some? && PublicationRecord !in w.run.files
    ensures var (texture, portrait) := Assets(w.run).value; AboutToFinish(After(w, events), texture, portrait)
    ensures |After(w, events).jobs| == |w.jobs|
    ensures forall i :: 1 <= i < |w.jobs| ==> After(w, events).jobs[i] == w.jobs[i]
  {
    var (t, p) := Assets(w.run).value;
    var recording, recorded, started := RecordingGoes(w.run, t, p);
    PuttingGoes(started, t, p);
    Opens(w, 0, Handling(PublishLoad));
    var placed := Some(Expected(t, p));
    assert AboutToFinish(With(w, started, placed, 0, Handling(PublishFinish(t, p, true))), t, p) by {
      hide InFlight, Expected, Sound, Assets, Goes;
    }
    hide After, Goes, With, AboutToFinish, Sound, InFlight, Assets, Expected;
    events := [Begin(0, Handling(PublishLoad))];
    events := Advances(w, events, 0, w.run, None, Handling(PublishLoad), w.run, None,
                       Handling(PublishRecord(t, p, true)));
    events := Advances(w, events, 0, w.run, None, Handling(PublishRecord(t, p, true)), recording, None,
                       Handling(PublishName(t, p, true)));
    events := Advances(w, events, 0, recording, None, Handling(PublishName(t, p, true)), recorded, None,
                       Handling(PublishEnter(t, p, true)));
    events := Advances(w, events, 0, recorded, None, Handling(PublishEnter(t, p, true)), started, None,
                       Handling(PublishPut(t, p)));
    events := Advances(w, events, 0, started, None, Handling(PublishPut(t, p)), started, placed,
                       Handling(PublishFlush(t, p)));
    events := Advances(w, events, 0, started, placed, Handling(PublishFlush(t, p)), started, placed,
                       Handling(PublishFinish(t, p, true)));
  }

  lemma RecordingGoes(run: Run, t: Content, p: Content) returns (recording: Run, recorded: Run, started: Run)
    requires Sound(run) && run.state == HumanApproved && Assets(run) == Some((t, p)) && PublicationRecord !in run.files
    ensures Goes(run, None, Handling(PublishLoad), run, None, Handling(PublishRecord(t, p, true)))
    ensures Goes(run, None, Handling(PublishRecord(t, p, true)), recording, None, Handling(PublishName(t, p, true)))
    ensures Goes(recording, None, Handling(PublishName(t, p, true)), recorded, None, Handling(PublishEnter(t, p, true)))
    ensures Goes(recorded, None, Handling(PublishEnter(t, p, true)), started, None, Handling(PublishPut(t, p)))
    ensures InFlight(started, t, p)
  {
    recording := run.(files := run.files[PublicationRecord := Publication(t, p)]);
    recorded := Register(recording, PublicationRecord);
    started := recorded.(state := Publishing, completed := run.completed + {PublishStart}, failed := false);
    assert InFlight(started, t, p);
    assert run.claim.None? && PublishStart !in run.completed;
    assert Goes(run, None, Handling(PublishLoad), run, None, Handling(PublishRecord(t, p, true))) by {
      hide Sound, AdvanceStage, WebPlan, ReviewPlan;
    }
    hide Sound, InFlight, Assets, WebPlan, ReviewPlan;
  }

  lemma PuttingGoes(run: Run, t: Content, p: Content)
    ensures Goes(run, None, Handling(PublishPut(t, p)), run, Some(Expected(t, p)), Handling(PublishFlush(t, p)))
    ensures Goes(run, Some(Expected(t, p)), Handling(PublishFlush(t, p)), run, Some(Expected(t, p)),
                 Handling(PublishFinish(t, p, true)))
  {
    hide WebPlan, ReviewPlan, Expected;
  }

  /** A recovery run while a publication is about to finish deletes its files first. */
  lemma RecoveryOvertakes(w: World, t: Content, p: Content) returns (events: seq<Event>)
    requires AboutToFinish(w, t, p) && |w.jobs| >= 2 && w.jobs[1].Idle?
    ensures After(w, events).run.state == Published && After(w, events).target.None?
    ensures events != [] && After(w, events[..|events| - 1]).run.state == Publishing
  {
    var run, d := w.run, Expected(t, p);
    RecoverGoes(run, t, p);
    DeletingGoes(run, t, p);
    FinishPublishes(run, t, p);
    Opens(w, 1, Handling(RecoverLoad));
    assert w.jobs[1 := Handling(RollBack)][0] == Handling(PublishFinish(t, p, true)) && w.target == Some(d);
    hide After, Goes, AboutToFinish, InFlight, Expected, Partly, Effect;
    events := [Begin(1, Handling(RecoverLoad))];
    events := Advances(w, events, 1, run, Some(d), Handling(RecoverLoad), run, Some(d), Handling(Delete(0)));
    events := Advances(w, events, 1, run, Some(d), Handling(Delete(0)), run, Some(Partly(d, 1)), Handling(Delete(1)));
    events := Advances(w, events, 1, run, Some(Partly(d, 1)), Handling(Delete(1)), run, Some(Partly(d, 2)),
                       Handling(Delete(2)));
    events := Advances(w, events, 1, run, Some(Partly(d, 2)), Handling(Delete(2)), run, Some(map[]),
                       Handling(Delete(3)));
    events := Advances(w, events, 1, run, Some(map[]), Handling(Delete(3)), run, None, Handling(RollBack));
    Then(w, events, Go(0, Fine));
    assert run.state == Publishing by { FlightState(run, t, p); }
    assert (events + [Go(0, Fine)])[..|events|] == events;
    events := events + [Go(0, Fine)];
  }

  lemma FlightState(run: Run, t: Content, p: Content)
    requires InFlight(run, t, p)
    ensures run.state == Publishing
  {
  }

  lemma RecoverGoes(run: Run, t: Content, p: Content)
    requires InFlight(run, t, p)
    ensures Goes(run, Some(Expected(t, p)), Handling(RecoverLoad), run, Some(Expected(t, p)), Handling(Delete(0)))
  {
    hide WebPlan, ReviewPlan, AdvanceStage, Apply, Expected, ReadArtifact, Assets;
  }

  lemma DeletingGoes(run: Run, t: Content, p: Content)
    ensures var d := Expected(t, p);
            && Goes(run, Some(d), Handling(Delete(0)), run, Some(Partly(d, 1)), Handling(Delete(1)))
            && Goes(run, Some(Partly(d, 1)), Handling(Delete(1)), run, Some(Partly(d, 2)), Handling(Delete(2)))
            && Goes(run, Some(Partly(d, 2)), Handling(Delete(2)), run, Some(map[]), Handling(Delete(3)))
            && Goes(run, Some(map[]), Handling(Delete(3)), run, None, Handling(RollBack))
  {
    var d := Expected(t, p);
    OneFewer(t, p);
    hide WebPlan, ReviewPlan, AdvanceStage, ReadArtifact, Assets, Apply, Partly, Expected, MatchesRecord;
  }

  lemma OneFewer(t: Content, p: Content)
    ensures var d := Expected(t, p);
            && d - {NAMES[0]} == Partly(d, 1) && Partly(d, 1) - {NAMES[1]} == Partly(d, 2)
            && Partly(d, 2) - {NAMES[2]} == map[]
  {
    hide MayStart, Assets;
  }

  lemma FinishPublishes(run: Run, t: Content, p: Content)
    requires InFlight(run, t, p)
    ensures var (done, target, _) := Effect(run, None, Handling(PublishFinish(t, p, true)), Fine);
            done.state == Published && target.None?
  {
    FromPublishing(run);
    hide WebPlan, ReviewPlan, InFlight, AdvanceStage;
  }

  /** Without that exclusion, a recovery started while a publication is under way can leave the
      run `published` with its directory gone, from any approved run. */
  lemma PublishedWithoutFiles(w: World) returns (events: seq<Event>)
    requires |w.jobs| >= 2 && w.jobs[0].Idle? && w.jobs[1].Idle? && w.target.None? && Sound(w.run)
    requires w.run.state == HumanApproved && Assets(w.run).Some? && PublicationRecord !in w.run.files
    ensures After(w, events).run.state == Published && After(w, events).target.None?
    ensures events != [] && After(w, events[..|events| - 1]).run.state == Publishing
  {
    var (t, p) := Assets(w.run).value;
    hide After, AboutToFinish, Sound;
    var first := PublisherArrives(w);
    var second := RecoveryOvertakes(After(w, first), t, p);
    AfterAfter(w, first, second);
    events := first + second;
    AfterAfter(w, first, second[..|second| - 1]);
    assert events[..|events| - 1] == first + second[..|second| - 1];
  }

  // ---------------------------------------------------------------- review and approval

  function Candidates(run: Run): Run {
    run.(state := CandidateReady, completed := run.completed + {Candidate}, failed := false)
  }

  function WithFile(run: Run, path: Path, content: Content): Run { run.(files := run.files[path := content]) }

  function ReviewedRun(run: Run, who: string, at: int): Run {
    Register(WithFile(run, PhaserEvidence, Reviewed(who, None, at)), PhaserEvidence)
      .(state := PhaserReviewed, completed := run.completed + {PhaserReview}, failed := false)
  }

  function ApprovedRun(run: Run, who: string, checks: seq<bool>, at: int): Run {
    Register(WithFile(run, ApprovalEvidence, Approved(who, checks, at)), ApprovalEvidence)
      .(state := HumanApproved, completed := run.completed + {HumanApproval}, failed := false)
  }

  /** Nothing is in the way of a Phaser review by `who` at `at`: no other evidence is on file. */
  ghost predicate Reviewable(run: Run, who: string, at: int) {
    && run.claim.None? && Assets(run).Some? && QcPassed(run) && PhaserReview !in run.completed
    && (PhaserEvidence in run.files ==> run.files[PhaserEvidence] == Reviewed(who, None, at))
  }

  lemma ReviewGoes(run: Run, target: Option<Directory>, who: string, at: int)
    requires run.state == CandidateReady && Reviewable(run, who, at)
    ensures var filed := WithFile(run, PhaserEvidence, Reviewed(who, None, at));
            var named := Register(filed, PhaserEvidence);
            && Goes(run, target, Reviewing(PhaserLoad(who, at)), run, target,
                    Reviewing(PhaserWrite(who, at, CandidateReady)))
            && Goes(run, target, Reviewing(PhaserWrite(who, at, CandidateReady)), filed, target,
                    Reviewing(PhaserName(CandidateReady)))
            && Goes(filed, target, Reviewing(PhaserName(CandidateReady)), named, target,
                    Reviewing(PhaserAdvance(CandidateReady)))
            && Goes(named, target, Reviewing(PhaserAdvance(CandidateReady)), ReviewedRun(run, who, at), target, Idle)
  {
    hide WebPlan, PublishPlan, ReadArtifact, Assets, QcPassed;
  }

  /** From the moment the evidence is about to be written. */
  lemma ReviewRest(w: World, before: seq<Event>, run: Run, who: string, at: int) returns (events: seq<Event>)
    requires |w.jobs| >= 1 && w.jobs[0].Idle? && run.state == CandidateReady && Reviewable(run, who, at)
    requires After(w, before) == With(w, run, w.target, 0, Reviewing(PhaserWrite(who, at, CandidateReady)))
    ensures After(w, events) == w.(run := ReviewedRun(run, who, at))
    ensures events == before + [Go(0, Fine), Go(0, Fine), Go(0, Fine)]
  {
    ReviewGoes(run, w.target, who, at);
    hide After, Goes, ReviewedRun, Register, WithFile;
    var filed := WithFile(run, PhaserEvidence, Reviewed(who, None, at));
    var named := Register(filed, PhaserEvidence);
    events := Advances(w, before, 0, run, w.target, Reviewing(PhaserWrite(who, at, CandidateReady)), filed, w.target,
                       Reviewing(PhaserName(CandidateReady)));
    events := Advances(w, events, 0, filed, w.target, Reviewing(PhaserName(CandidateReady)), named, w.target,
                       Reviewing(PhaserAdvance(CandidateReady)));
    events := Advances(w, events, 0, named, w.target, Reviewing(PhaserAdvance(CandidateReady)),
                       ReviewedRun(run, who, at), w.target, Idle);
    assert w.jobs[0 := Idle] == w.jobs;
  }

  /** The review command taken to its end. */
  lemma ReviewEnds(w: World, who: string, at: int) returns (events: seq<Event>)
    requires |w.jobs| >= 1 && w.jobs[0].Idle? && w.run.state == CandidateReady && Reviewable(w.run, who, at)
    ensures After(w, events) == w.(run := ReviewedRun(w.run, who, at))
    ensures events == [Begin(0, Reviewing(PhaserLoad(who, at)))] + [Go(0, Fine), Go(0, Fine), Go(0, Fine), Go(0, Fine)]
  {
    ReviewGoes(w.run, w.target, who, at);
    var load, write := Reviewing(PhaserLoad(who, at)), Reviewing(PhaserWrite(who, at, CandidateReady));
    Opens(w, 0, load);
    hide After, Goes, ReviewedRun, Register, WithFile;
    events := Advances(w, [Begin(0, load)], 0, w.run, w.target, load, w.run, w.target, write);
    events := ReviewRest(w, events, w.run, who, at);
  }

  lemma CandidateGoes(run: Run, target: Option<Directory>, who: string, at: int)
    requires run.state == AutoQcPassed && Reviewable(run, who, at) && Candidate !in run.completed
    ensures Goes(run, target, Reviewing(PhaserLoad(who, at)), run, target, Reviewing(PhaserCandidate(who, at)))
    ensures Goes(run, target, Reviewing(PhaserCandidate(who, at)), Candidates(run), target,
                 Reviewing(PhaserWrite(who, at, CandidateReady)))
    ensures Reviewable(Candidates(run), who, at)
  {
    hide WebPlan, PublishPlan;
  }

  /** The review command of a run fresh from automatic QC, up to writing its evidence. */
  lemma FirstReviewWrites(w: World, who: string, at: int) returns (events: seq<Event>)
    requires |w.jobs| >= 1 && w.jobs[0].Idle? && w.run.state == AutoQcPassed && Reviewable(w.run, who, at)
             && Candidate !in w.run.completed
    ensures After(w, events) == With(w, Candidates(w.run), w.target, 0, Reviewing(PhaserWrite(who, at, CandidateReady)))
    ensures forall e :: e in events && e.Begin? ==> e.job == Reviewing(PhaserLoad(who, at))
  {
    CandidateGoes(w.run, w.target, who, at);
    var load, candidate := Reviewing(PhaserLoad(who, at)), Reviewing(PhaserCandidate(who, at));
    var write := Reviewing(PhaserWrite(who, at, CandidateReady));
    Opens(w, 0, load);
    hide After, Goes, Candidates, Reviewable;
    events := Advances(w, [Begin(0, load)], 0, w.run, w.target, load, w.run, w.target, candidate);
    events := Advances(w, events, 0, w.run, w.target, candidate, Candidates(w.run), w.target, write);
  }

  lemma FirstReviewEnds(w: World, who: string, at: int) returns (events: seq<Event>)
    requires |w.jobs| >= 1 && w.jobs[0].Idle? && w.run.state == AutoQcPassed && Reviewable(w.run, who, at)
             && Candidate !in w.run.completed
    ensures After(w, events) == w.(run := ReviewedRun(Candidates(w.run), who, at))
    ensures forall e :: e in events && e.Begin? ==> e.job == Reviewing(PhaserLoad(who, at))
  {
    CandidateGoes(w.run, w.target, who, at);
    assert Candidates(w.run).state == CandidateReady;
    hide After, Goes, ReviewedRun, Candidates, Reviewable;
    events := FirstReviewWrites(w, who, at);
    events := ReviewRest(w, events, Candidates(w.run), who, at);
  }

  /** Nothing is in the way of this approval: no other evidence is on file. */
  ghost predicate Approvable(run: Run, evidence: Content) {
    && run.state == PhaserReviewed && run.claim.None? && HumanApproval !in run.completed && GoodApproval(evidence)
    && (ApprovalEvidence in run.files ==> run.files[ApprovalEvidence] == evidence)
  }

  lemma ApprovalGoes(run: Run, target: Option<Directory>, who: string, checks: seq<bool>, at: int)
    requires Approvable(run, Approved(who, checks, at))
    ensures var filed := WithFile(run, ApprovalEvidence, Approved(who, checks, at));
            var named := Register(filed, ApprovalEvidence);
            && Goes(run, target, Reviewing(ApproveWrite(Approved(who, checks, at))), filed, target,
                    Reviewing(ApproveName))
            && Goes(filed, target, Reviewing(ApproveName), named, target, Reviewing(ApproveAdvance))
            && Goes(named, target, Reviewing(ApproveAdvance), ApprovedRun(run, who, checks, at), target, Idle)
  {
    hide WebPlan, PublishPlan, ReadArtifact, Assets, QcPassed, GoodApproval;
  }

  lemma ApprovalLoads(run: Run, target: Option<Directory>, who: string, checks: seq<bool>, at: int)
    requires Approvable(run, Approved(who, checks, at))
    ensures Goes(run, target, Reviewing(ApproveLoad(who, checks, at)), run, target,
                 Reviewing(ApproveWrite(Approved(who, checks, at))))
  {
    hide WebPlan, PublishPlan, ReadArtifact, Assets, QcPassed, AllNine, Apply;
  }

  /** From the moment the evidence is about to be written. */
  lemma ApprovalEnds(w: World, before: seq<Event>, who: string, checks: seq<bool>, at: int) returns (events: seq<Event>)
    requires |w.jobs| >= 1 && w.jobs[0].Idle? && Approvable(w.run, Approved(who, checks, at))
    requires After(w, before) == With(w, w.run, w.target, 0, Reviewing(ApproveWrite(Approved(who, checks, at))))
    ensures After(w, events) == w.(run := ApprovedRun(w.run, who, checks, at))
    ensures events == before + [Go(0, Fine), Go(0, Fine), Go(0, Fine)]
  {
    ApprovalGoes(w.run, w.target, who, checks, at);
    hide After, Goes, ApprovedRun, Register, WithFile;
    var filed := WithFile(w.run, ApprovalEvidence, Approved(who, checks, at));
    var named := Register(filed, ApprovalEvidence);
    events := Advances(w, before, 0, w.run, w.target, Reviewing(ApproveWrite(Approved(who, checks, at))), filed,
                       w.target, Reviewing(ApproveName));
    events := Advances(w, events, 0, filed, w.target, Reviewing(ApproveName), named, w.target,
                       Reviewing(ApproveAdvance));
    events := Advances(w, events, 0, named, w.target, Reviewing(ApproveAdvance), ApprovedRun(w.run, who, checks, at),
                       w.target, Idle);
    assert w.jobs[0 := Idle] == w.jobs;
  }

  lemma Approves(w: World, who: string, checks: seq<bool>, at: int) returns (events: seq<Event>)
    requires |w.jobs| >= 1 && w.jobs[0].Idle? && Approvable(w.run, Approved(who, checks, at))
    ensures After(w, events) == w.(run := ApprovedRun(w.run, who, checks, at))
    ensures events == [Begin(0, Reviewing(ApproveLoad(who, checks, at)))]
            + [Go(0, Fine), Go(0, Fine), Go(0, Fine), Go(0, Fine)]
  {
    ApprovalLoads(w.run, w.target, who, checks, at);
    var load, write := Reviewing(ApproveLoad(who, checks, at)), Reviewing(ApproveWrite(Approved(who, checks, at)));
    Opens(w, 0, load);
    hide After, Goes, ApprovedRun;
    events := Advances(w, [Begin(0, load)], 0, w.run, w.target, load, w.run, w.target, write);
    events := ApprovalEnds(w, events, who, checks, at);
  }

  /** A submission on the web page that the stored evidence and image agree with. */
  ghost predicate Agrees(run: Run, form: Form) {
    && ReadArtifact(run, Texture) == Ok(form.texture)
    && PhaserEvidence in run.files && run.files[PhaserEvidence].Reviewed?
    && run.files[PhaserEvidence].reviewer == form.reviewer && run.files[PhaserEvidence].render.Some?
  }

  lemma WebGoes(run: Run, target: Option<Directory>, form: Form)
    requires Approvable(run, Approved(form.reviewer, form.checks, form.at)) && Agrees(run, form)
    requires PhaserEvidence in run.registered && Screened(run, run.files[PhaserEvidence].render.value)
    ensures var shot := run.files[PhaserEvidence].render.value;
            && Goes(run, target, Approving(WebLoad(form)), run, target, Approving(WebShot(form, PhaserReviewed)))
            && Goes(run, target, Approving(WebShot(form, PhaserReviewed)), run, target,
                    Approving(WebEvidence(form, PhaserReviewed, shot)))
            && Goes(run, target, Approving(WebEvidence(form, PhaserReviewed, shot)), run, target,
                    Approving(WebAdvance(form, PhaserReviewed)))
            && Goes(run, target, Approving(WebAdvance(form, PhaserReviewed)), run, target,
                    Reviewing(ApproveWrite(Approved(form.reviewer, form.checks, form.at))))
  {
    hide ReviewPlan, PublishPlan, Apply;
  }

  lemma WebApproves(w: World, form: Form) returns (events: seq<Event>)
    requires |w.jobs| >= 1 && w.jobs[0].Idle? && Documented(w.run)
    requires Approvable(w.run, Approved(form.reviewer, form.checks, form.at)) && Agrees(w.run, form)
    requires PhaserEvidence in w.run.registered
    ensures After(w, events) == w.(run := ApprovedRun(w.run, form.reviewer, form.checks, form.at))
    ensures events == [Begin(0, Approving(WebLoad(form)))]
            + [Go(0, Fine), Go(0, Fine), Go(0, Fine), Go(0, Fine), Go(0, Fine), Go(0, Fine), Go(0, Fine)]
  {
    hide Sound, InOrder;
    var run, target, shot := w.run, w.target, w.run.files[PhaserEvidence].render.value;
    WebGoes(run, target, form);
    Opens(w, 0, Approving(WebLoad(form)));
    hide After, Goes, ApprovedRun;
    events := [Begin(0, Approving(WebLoad(form)))];
    events := Advances(w, events, 0, run, target, Approving(WebLoad(form)), run, target,
                       Approving(WebShot(form, PhaserReviewed)));
    events := Advances(w, events, 0, run, target, Approving(WebShot(form, PhaserReviewed)), run, target,
                       Approving(WebEvidence(form, PhaserReviewed, shot)));
    events := Advances(w, events, 0, run, target, Approving(WebEvidence(form, PhaserReviewed, shot)), run, target,
                       Approving(WebAdvance(form, PhaserReviewed)));
    events := Advances(w, events, 0, run, target, Approving(WebAdvance(form, PhaserReviewed)), run, target,
                       Reviewing(ApproveWrite(Approved(form.reviewer, form.checks, form.at))));
    events := ApprovalEnds(w, events, form.reviewer, form.checks, form.at);
  }

  // ---------------------------------------------------------------- from the beginning

  function Working(ops: seq<StoreOp>): seq<Event> {
    if ops == [] then [] else Working(ops[..|ops| - 1]) + [Worker(ops[|ops| - 1])]
  }

  lemma {:induction false} WorkerRuns(w: World, ops: seq<StoreOp>)
    requires forall op :: op in ops ==> WorkerOp(op)
    ensures After(w, Working(ops)) == w.(run := ApplyAll(w.run, ops))
  {
    if ops != [] {
      hide WorkerOp;
      WorkerRuns(w, ops[..|ops| - 1]);
      Then(w, Working(ops[..|ops| - 1]), Worker(ops[|ops| - 1]));
    }
  }

  /** The worker has brought a run this far. */
  ghost predicate Reached(run: Run, ops: seq<StoreOp>, now: Run) {
    ApplyAll(run, ops) == now && forall op :: op in ops ==> WorkerOp(op)
  }

  lemma OneMoreOp(run: Run, ops: seq<StoreOp>, op: StoreOp, now: Run, next: Run) returns (more: seq<StoreOp>)
    requires Reached(run, ops, now) && WorkerOp(op) && Apply(now, op) == Ok(next)
    ensures Reached(run, more, next)
  {
    more := ops + [op];
    hide WorkerOp, Apply;
    ThenApply(run, ops, op);
  }

  lemma Draws(run: Run, ops: seq<StoreOp>, now: Run, p: ProviderStage) returns (more: seq<StoreOp>, next: Run)
    requires Reached(run, ops, now) && now.claim.None? && CompletedStage(p) !in now.completed
    requires if p.AnchorImage? then now.state == Requested
             else p.direction in Directions(now.generateRight) && Anchor in now.completed && now.state == AnchorReady
    ensures next == now.(state := AnchorReady, completed := now.completed + {CompletedStage(p)}, failed := false)
    ensures Reached(run, more, next)
  {
    hide Reached;
    next := now.(state := AnchorReady, completed := now.completed + {CompletedStage(p)}, failed := false);
    var claimed := now.(claim := Some(p));
    assert Apply(now, Claim(p)) == Ok(claimed);
    more := OneMoreOp(run, ops, Claim(p), now, claimed);
    more := OneMoreOp(run, more, Complete, claimed, next);
  }

  lemma Checkpoints(run: Run, ops: seq<StoreOp>, now: Run, stage: Stage) returns (more: seq<StoreOp>, next: Run)
    requires Reached(run, ops, now) && now.claim.None? && stage in {Strips, Postprocess, AutoQc}
             && stage !in now.completed
    requires stage == Strips ==> forall d :: d in Directions(now.generateRight) ==> Strip(d) in now.completed
    requires now.state == match stage case Strips => AnchorReady case Postprocess => StripsReady case _ => Processed
    ensures next == now.(state := Target(stage).value, completed := now.completed + {stage}, failed := false)
    ensures Reached(run, more, next)
  {
    next := now.(state := Target(stage).value, completed := now.completed + {stage}, failed := false);
    assert AdvanceStage(now, stage, false) == Ok(next);
    hide Reached, AdvanceStage, Target;
    more := OneMoreOp(run, ops, Advance(stage, false), now, next);
  }

  lemma Files(
    run: Run, ops: seq<StoreOp>, now: Run, path: Path, content: Content) returns (more: seq<StoreOp>, next: Run)
    requires Reached(run, ops, now) && !IsTerminal(now.state) && path !in now.files
             && path in {Texture, Portrait, QcReport}
    ensures next == now.(files := now.files[path := content], registered := now.registered + {path})
    ensures Reached(run, more, next)
  {
    hide Reached;
    next := now.(files := now.files[path := content], registered := now.registered + {path});
    more := OneMoreOp(run, ops, Create(path, content), now, WithFile(now, path, content));
    more := OneMoreOp(run, more, Name(path), WithFile(now, path, content), next);
  }

  /** A run generated and through automatic QC. */
  ghost predicate Generated(run: Run, texture: Content, portrait: Content) {
    && run.state == AutoQcPassed && run.claim.None? && Assets(run) == Some((texture, portrait)) && QcPassed(run)
    && run.completed !! {Candidate, PhaserReview, HumanApproval, PublishStart, SpriteRun.Publish, Rollback, Quarantine}
    && run.files.Keys == {Texture, Portrait, QcReport} && run.registered == {Texture, Portrait, QcReport}
  }

  lemma Generates(run: Run, texture: Content, portrait: Content) returns (ops: seq<StoreOp>)
    requires run.state == Requested && run.completed == {} && run.files == map[] && run.registered == {}
             && run.claim.None?
    ensures (forall op :: op in ops ==> WorkerOp(op)) && Generated(ApplyAll(run, ops), texture, portrait)
  {
    hide ApplyAll, WorkerOp;
    assert Reached(run, [], run) by { ApplyNone(run); }
    var now;
    ops, now := Draws(run, [], run, AnchorImage);
    ops, now := Draws(run, ops, now, StripImage(Down));
    ops, now := Draws(run, ops, now, StripImage(Left));
    ops, now := Draws(run, ops, now, StripImage(Up));
    if run.generateRight {
      ops, now := Draws(run, ops, now, StripImage(Right));
    }
    ops := Finishes(run, ops, now, texture, portrait);
  }

  lemma ApplyNone(run: Run)
    ensures ApplyAll(run, []) == run
  {
  }

  lemma Finishes(
    run: Run, drawn: seq<StoreOp>, now: Run, texture: Content, portrait: Content) returns (ops: seq<StoreOp>)
    requires Reached(run, drawn, now) && now.state == AnchorReady && now.claim.None? && now.files == map[]
             && now.registered == {}
    requires now.completed == {Anchor} + set d | d in Directions(now.generateRight) :: Strip(d)
    ensures (forall op :: op in ops ==> WorkerOp(op)) && Generated(ApplyAll(run, ops), texture, portrait)
  {
    hide ApplyAll, WorkerOp, Directions;
    var next;
    ops, next := Checkpoints(run, drawn, now, Strips);
    ops, next := Checkpoints(run, ops, next, Postprocess);
    ops, next := Checkpoints(run, ops, next, AutoQc);
    assert next.completed == now.completed + {Strips, Postprocess, AutoQc};
    ops := FilesAll(run, ops, next, texture, portrait);
  }

  lemma FilesAll(
    run: Run, checked: seq<StoreOp>, now: Run, texture: Content, portrait: Content) returns (ops: seq<StoreOp>)
    requires Reached(run, checked, now) && now.state == AutoQcPassed && now.claim.None? && now.files == map[]
             && now.registered == {}
    requires now.completed !!
             {Candidate, PhaserReview, HumanApproval, PublishStart, SpriteRun.Publish, Rollback, Quarantine}
    ensures (forall op :: op in ops ==> WorkerOp(op)) && Generated(ApplyAll(run, ops), texture, portrait)
  {
    var next;
    hide ApplyAll, WorkerOp;
    ops, next := Files(run, checked, now, Texture, texture);
    ops, next := Files(run, ops, next, Portrait, portrait);
    ops, next := Files(run, ops, next, QcReport, Qc(true, 0));
    assert next.files == map[Texture := texture, Portrait := portrait, QcReport := Qc(true, 0)];
    assert next.registered == {Texture, Portrait, QcReport};
  }

  const ALL_NINE: seq<bool> := [true, true, true, true, true, true, true, true, true]

  /** Generated, reviewed and approved, with nothing else under way. */
  lemma Approval(w: World, texture: Content, portrait: Content) returns (events: seq<Event>)
    requires Initial(w) && |w.jobs| >= 1
    ensures var after := After(w, events);
            && after.run.state == HumanApproved && Assets(after.run) == Some((texture, portrait)) && Sound(after.run)
            && PublicationRecord !in after.run.files && after.target == w.target && after.jobs == w.jobs
  {
    var ops := Generates(w.run, texture, portrait);
    WorkerRuns(w, ops);
    var run := ApplyAll(w.run, ops);
    var made := w.(run := run);
    GeneratedReviewable(run, texture, portrait, "reviewer", 0);
    hide After, ApplyAll, Generated, Reviewable, Approvable, ReviewedRun, ApprovedRun, Candidates, Documented;
    var second := FirstReviewEnds(made, "reviewer", 0);
    var reviewed := made.(run := ReviewedRun(Candidates(run), "reviewer", 0));
    var third := Approves(reviewed, "reviewer", ALL_NINE, 0);
    AfterAfter(w, Working(ops), second);
    AfterAfter(w, Working(ops) + second, third);
    events := Working(ops) + second + third;
    AlwaysBacked(w, events);
    assert Sound(After(w, events).run) by { DocumentedSound(After(w, events)); }
  }

  lemma DocumentedSound(w: World)
    requires AllBacked(w)
    ensures Sound(w.run)
  {
  }

  lemma GeneratedReviewable(run: Run, texture: Content, portrait: Content, who: string, at: int)
    requires Generated(run, texture, portrait)
    ensures run.state == AutoQcPassed && Reviewable(run, "reviewer", 0) && Candidate !in run.completed
    ensures var reviewed := ReviewedRun(Candidates(run), "reviewer", 0);
            && Approvable(reviewed, Approved(who, ALL_NINE, at))
            && (var filed := Register(WithFile(reviewed, ApprovalEvidence, Approved(who, ALL_NINE, at)),
                                      ApprovalEvidence);
                filed.state == PhaserReviewed && ReadArtifact(filed, Texture).Ok?
                && ApprovalEvidence in filed.files && filed.files[ApprovalEvidence] == Approved(who, ALL_NINE, at))
            && var approved := ApprovedRun(reviewed, who, ALL_NINE, at);
               approved.state == HumanApproved && Assets(approved) == Some((texture, portrait))
                   && PublicationRecord !in approved.files
  {
  }

  /** A review command dies after its evidence is on file, named by the manifest or not. */
  lemma ReviewDies(w: World, who: string, at: int, named: bool) returns (events: seq<Event>)
    requires Initial(w) && |w.jobs| >= 1
    ensures var now := After(w, events);
            && now.jobs == w.jobs && now.run.state == CandidateReady && Assets(now.run).Some? && QcPassed(now.run)
            && PhaserEvidence in now.run.files && now.run.files[PhaserEvidence] == Reviewed(who, None, at)
            && (PhaserEvidence in now.run.registered <==> named)
  {
    var ops := Generates(w.run, Bytes([0]), Bytes([1]));
    WorkerRuns(w, ops);
    var made := w.(run := ApplyAll(w.run, ops));
    hide After, ApplyAll;
    var second := ReviewCutShort(made, who, at, named);
    AfterAfter(w, Working(ops), second);
    events := Working(ops) + second;
  }

  lemma ReviewCutShort(w: World, who: string, at: int, named: bool) returns (events: seq<Event>)
    requires |w.jobs| >= 1 && w.jobs[0].Idle? && exists t, p :: Generated(w.run, t, p)
    ensures var now := After(w, events);
            && now.jobs == w.jobs && now.run.state == CandidateReady && Assets(now.run).Some? && QcPassed(now.run)
            && PhaserEvidence in now.run.files && now.run.files[PhaserEvidence] == Reviewed(who, None, at)
            && (PhaserEvidence in now.run.registered <==> named)
  {
    CandidateGoes(w.run, w.target, who, at);
    var run := Candidates(w.run);
    var filed := WithFile(run, PhaserEvidence, Reviewed(who, None, at));
    var write, name := Reviewing(PhaserWrite(who, at, CandidateReady)), Reviewing(PhaserName(CandidateReady));
    ReviewGoes(run, w.target, who, at);
    FiledAsIs(w.run, who, at);
    hide After, Goes, Candidates, Reviewable, WithFile, Register, Assets, QcPassed, Generated;
    events := FirstReviewWrites(w, who, at);
    events := Advances(w, events, 0, run, w.target, write, filed, w.target, name);
    if named {
      events := Advances(w, events, 0, filed, w.target, name, Register(filed, PhaserEvidence), w.target,
                         Reviewing(PhaserAdvance(CandidateReady)));
    }
    Then(w, events, Crash(0));
    events := events + [Crash(0)];
    assert w.jobs[0 := Idle] == w.jobs;
  }

  lemma FiledAsIs(run: Run, who: string, at: int)
    requires exists t, p :: Generated(run, t, p)
    ensures var filed := WithFile(Candidates(run), PhaserEvidence, Reviewed(who, None, at));
            var named := Register(filed, PhaserEvidence);
            && filed.state == CandidateReady && named.state == CandidateReady
            && Assets(filed).Some? && Assets(named).Some? && QcPassed(filed) && QcPassed(named)
            && PhaserEvidence in filed.files && filed.files == named.files
               && filed.files[PhaserEvidence] == Reviewed(who, None, at)
            && PhaserEvidence !in filed.registered && PhaserEvidence in named.registered
  {
  }

  /** An approval command dies after its evidence is on file. */
  lemma ApprovalDies(w: World, who: string, at: int) returns (events: seq<Event>)
    requires Initial(w) && |w.jobs| >= 1
    ensures var now := After(w, events);
            && now.jobs == w.jobs && now.run.state == PhaserReviewed && ReadArtifact(now.run, Texture).Ok?
            && ApprovalEvidence in now.run.files && now.run.files[ApprovalEvidence] == Approved(who, ALL_NINE, at)
  {
    var ops := Generates(w.run, Bytes([0]), Bytes([1]));
    WorkerRuns(w, ops);
    var run := ApplyAll(w.run, ops);
    var made := w.(run := run);
    GeneratedReviewable(run, Bytes([0]), Bytes([1]), who, at);
    hide After, ApplyAll, Generated, Reviewable, Approvable, ReviewedRun, Candidates;
    var second := FirstReviewEnds(made, "reviewer", 0);
    var reviewed := made.(run := ReviewedRun(Candidates(run), "reviewer", 0));
    var third := ApprovalCutShort(reviewed, who, at);
    AfterAfter(w, Working(ops), second);
    AfterAfter(w, Working(ops) + second, third);
    events := Working(ops) + second + third;
  }

  lemma ApprovalCutShort(w: World, who: string, at: int) returns (events: seq<Event>)
    requires |w.jobs| >= 1 && w.jobs[0].Idle? && Approvable(w.run, Approved(who, ALL_NINE, at))
    ensures After(w, events)
            == w.(run := Register(WithFile(w.run, ApprovalEvidence, Approved(who, ALL_NINE, at)), ApprovalEvidence))
  {
    ApprovalLoads(w.run, w.target, who, ALL_NINE, at);
    ApprovalGoes(w.run, w.target, who, ALL_NINE, at);
    var load, write := Reviewing(ApproveLoad(who, ALL_NINE, at)), Reviewing(ApproveWrite(Approved(who, ALL_NINE, at)));
    var filed := WithFile(w.run, ApprovalEvidence, Approved(who, ALL_NINE, at));
    var named := Register(filed, ApprovalEvidence);
    Opens(w, 0, load);
    hide After, Goes, WithFile, Register;
    events := Advances(w, [Begin(0, load)], 0, w.run, w.target, load, w.run, w.target, write);
    events := Advances(w, events, 0, w.run, w.target, write, filed, w.target, Reviewing(ApproveName));
    events := Advances(w, events, 0, filed, w.target, Reviewing(ApproveName), named, w.target,
                       Reviewing(ApproveAdvance));
    Then(w, events, Crash(0));
    events := events + [Crash(0)];
    assert w.jobs[0 := Idle] == w.jobs;
  }

  /** Published, with the run's own texture, portrait and record as the public files. */
  ghost predicate PublishedHere(w: World) {
    && w.run.state == Published && w.target.Some?
    && w.target.value.Keys == {"texture.png", "portrait.png", "publication.json"}
    && Texture in w.run.files && w.target.value["texture.png"] == w.run.files[Texture]
    && Portrait in w.run.files && w.target.value["portrait.png"] == w.run.files[Portrait]
    && PublicationRecord in w.run.files && w.target.value["publication.json"] == w.run.files[PublicationRecord]
  }

  /** A run generated, approved and published, by one command at a time: the promises made of
      every history are about histories that exist. */
  lemma ApprovalAndPublication(w: World, texture: Content, portrait: Content) returns (events: seq<Event>)
    requires Initial(w) && |w.jobs| >= 1 && w.target.None?
    ensures PublishedHere(After(w, events)) && Assets(After(w, events).run) == Some((texture, portrait))
  {
    hide After, Sound, AboutToFinish;
    var first := Approval(w, texture, portrait);
    var approved := After(w, first);
    var second := PublisherArrives(approved);
    var third := FinishArrives(After(approved, second), texture, portrait);
    AfterAfter(w, first, second);
    AfterAfter(w, first + second, third);
    events := first + second + third;
  }

  lemma FinishArrives(w: World, t: Content, p: Content) returns (events: seq<Event>)
    requires AboutToFinish(w, t, p)
    ensures PublishedHere(After(w, events)) && Assets(After(w, events).run) == Some((t, p))
  {
    events := [] + [Go(0, Fine)];
    Then(w, [], Go(0, Fine));
    FinishLeaves(w.run, t, p);
    ExpectedFiles(t, p);
    hide After, Expected, Effect, InFlight;
  }

  lemma FinishLeaves(run: Run, t: Content, p: Content)
    requires InFlight(run, t, p)
    ensures var (done, target, _) := Effect(run, Some(Expected(t, p)), Handling(PublishFinish(t, p, true)), Fine);
            && done.state == Published && Assets(done) == Some((t, p)) && target == Some(Expected(t, p))
            && PublicationRecord in done.files && done.files[PublicationRecord] == Publication(t, p)
            && Texture in done.files && done.files[Texture] == t && Portrait in done.files && done.files[Portrait] == p
  {
    FromPublishing(run);
    hide WebPlan, ReviewPlan, Expected;
  }

  // ---------------------------------------------------------------- how many at a time

  /** How many commands that touch the public directory are under way. */
  function Busy(jobs: seq<Job>): nat {
    if jobs == [] then 0 else Busy(jobs[..|jobs| - 1]) + if jobs[|jobs| - 1].Handling? then 1 else 0
  }

  lemma {:induction false} BusyBound(jobs: seq<Job>)
    ensures Busy(jobs) <= |jobs|
    ensures Busy(jobs) == 0 ==> forall i :: 0 <= i < |jobs| ==> !jobs[i].Handling?
    ensures Busy(jobs) <= 1 ==>
              forall i, j :: 0 <= i < |jobs| && 0 <= j < |jobs| && jobs[i].Handling? && jobs[j].Handling? ==> i == j
  {
    if jobs != [] {
      BusyBound(jobs[..|jobs| - 1]);
      assert forall i :: 0 <= i < |jobs| - 1 ==> jobs[..|jobs| - 1][i] == jobs[i];
    }
  }

  /** Never more than `n` at a time. */
  ghost predicate AtMost(n: nat, w: World, events: seq<Event>) {
    forall k :: 0 <= k <= |events| ==> Busy(After(w, events[..k]).jobs) <= n
  }

  /** `published` is entered at the last of these events. */
  ghost predicate Enters(w: World, events: seq<Event>) {
    && Initial(w) && events != []
    && After(w, events[..|events| - 1]).run.state != Published && After(w, events).run.state == Published
  }

  lemma {:induction false} JobsKept(w: World, events: seq<Event>)
    ensures |After(w, events).jobs| == |w.jobs|
  {
    hide Effect, Apply;
    if events != [] {
      JobsKept(w, events[..|events| - 1]);
    }
  }

  /** All histories with at most `n` publish and recover commands under way at once enter
      `published` only with the files in place, if and only if `n` is at most one. */
  lemma FilesIffOneAtATime(n: nat)
    ensures (forall w, events :: Enters(w, events) && AtMost(n, w, events) ==> PublishedHere(After(w, events)))
            <==> n <= 1
  {
    if n <= 1 {
      forall w, events | Enters(w, events) && AtMost(n, w, events) ensures PublishedHere(After(w, events)) {
        OneAtATime(w, events);
      }
    } else {
      var w, events := TwoAtATime();
      assert Enters(w, events) && AtMost(n, w, events) && !PublishedHere(After(w, events));
    }
  }

  lemma AtMostOneIsExclusive(w: World, events: seq<Event>, n: nat)
    requires AtMost(1, w, events) && n <= |events|
    ensures ExclusiveThroughout(w, events[..n])
  {
    hide After, Busy;
    forall k | 0 <= k <= n ensures Exclusive(After(w, events[..n][..k])) {
      assert events[..n][..k] == events[..k];
      BusyBound(After(w, events[..k]).jobs);
    }
  }

  lemma OneAtATime(w: World, events: seq<Event>)
    requires Enters(w, events) && AtMost(1, w, events)
    ensures PublishedHere(After(w, events))
  {
    hide After, AtMost, Initial, Assets, Expected, ExclusiveThroughout;
    var front, last := events[..|events| - 1], events[|events| - 1];
    AtMostOneIsExclusive(w, events, |front|);
    assert events == front + [last];
    PublishedWithFiles(w, front, last);
  }

  lemma TwoAtATime() returns (w: World, events: seq<Event>)
    ensures Enters(w, events) && !PublishedHere(After(w, events)) && forall n :: n >= 2 ==> AtMost(n, w, events)
  {
    hide After, Sound, PublishedHere;
    w := World(Run(Requested, {}, map[], {}, None, false, false), None, [Idle, Idle]);
    var first := Approval(w, Bytes([0]), Bytes([1]));
    var second := PublishedWithoutFiles(After(w, first));
    AfterAfter(w, first, second);
    AfterAfter(w, first, second[..|second| - 1]);
    events := first + second;
    assert events[..|events| - 1] == first + second[..|second| - 1];
    forall k | 0 <= k <= |events| ensures Busy(After(w, events[..k]).jobs) <= 2 {
      JobsKept(w, events[..k]);
      BusyBound(After(w, events[..k]).jobs);
    }
    assert !PublishedHere(After(w, events)) by { NotHere(After(w, events)); }
  }

  lemma NotHere(w: World)
    requires w.target.None?
    ensures !PublishedHere(w)
  {
  }
}
