/** Publishing a sprite run, and recovering a publication that was cut short.

    Publication touches two durable things in turn: the run's manifest and the public
    directory of the sprite.  Any step may fail in process, and the process may die between
    any two durable effects; `trail` records the disk after each effect, so a property of the
    trail is a property of every crash. */
module SpritePublication {
  import opened Bags
  import opened SpriteRun

  type Directory = map<string, Content>

  datatype Disk = Disk(run: Run, target: Option<Directory>)

  const NAMES: seq<string> := ["texture.png", "portrait.png", "publication.json"]

  function Expected(texture: Content, portrait: Content): Directory {
    map["texture.png" := texture, "portrait.png" := portrait, "publication.json" := Publication(texture, portrait)]
  }

  /** The directory after its first `n` files have been deleted. */
  function Partly(d: Directory, n: nat): Directory
    requires n <= |NAMES|
  {
    d - (set i | 0 <= i < n :: NAMES[i])
  }

  // ---------------------------------------------------------------- what can go wrong

  /** A manifest write: it takes effect and returns, does nothing and raises, or takes effect
      and then raises because the directory entry could not be flushed. */
  datatype Commit = Commits | FailsBefore | FailsAfter

  /** Deleting the public directory file by file: it may stop part way, or fail to flush. */
  datatype Removal = Removes | StopsAfter(deleted: nat) | SyncFails

  /** `rival` is a directory another writer puts in place just before the rename. */
  datatype Faults = Faults(
    staging: bool, record: Commit, start: Commit, rival: Option<Directory>, replace: bool, sync: bool,
    finish: Commit, removal: Removal, rollback: Commit)

  predicate PlausibleFaults(f: Faults) {
    f.removal.StopsAfter? ==> f.removal.deleted < |NAMES|
  }

  // ---------------------------------------------------------------- the reference outcome

  /** What a publication reads before it changes anything. */
  function Assets(run: Run): Option<(Content, Content)> {
    var texture, portrait := ReadArtifact(run, Texture), ReadArtifact(run, Portrait);
    if texture.Ok? && portrait.Ok? then Some((texture.value, portrait.value)) else None
  }

  predicate MayStart(d: Disk) {
    && d.run.state == HumanApproved
    && Assets(d.run).Some?
    && (d.target.Some? ==> d.target.value == Expected(Assets(d.run).value.0, Assets(d.run).value.1))
  }

  function Recorded(run: Run, texture: Content, portrait: Content): Result<Run> {
    WriteArtifact(run, PublicationRecord, Publication(texture, portrait))
  }

  /** A checkpoint under a commit fault: the run afterwards, and whether the call returned. */
  function Committed(run: Run, r: Result<Run>, c: Commit): (Run, bool) {
    if r.Err? || c == FailsBefore then (run, false) else (r.value, c == Commits)
  }

  /** How putting the directory in place ends: the target, whether this call installed it,
      and whether the call goes on. */
  datatype Placed = Placed(target: Option<Directory>, installed: bool, goesOn: bool)

  function Place(before: Option<Directory>, expected: Directory, f: Faults): Placed {
    if before.Some? then Placed(before, false, true)
    else if f.rival.Some? && f.rival.value != map[] then Placed(f.rival, false, f.rival.value == expected && !f.sync)
    else if f.replace then Placed(f.rival, false, false)
    else Placed(Some(expected), true, !f.sync)
  }

  /** Undoing: remove what this call installed, then roll the run back. */
  function Undone(d: Disk, installed: bool, f: Faults): Disk
    requires PlausibleFaults(f)
  {
    if installed && d.target.Some? then
      match f.removal
      case StopsAfter(n) => d.(target := Some(Partly(d.target.value, n)))
      case SyncFails => d.(target := None)
      case Removes => Disk(Committed(d.run, AdvanceStage(d.run, Rollback, false), f.rollback).0, None)
    else d.(run := Committed(d.run, AdvanceStage(d.run, Rollback, false), f.rollback).0)
  }

  /** Staging, writing the publication record and entering `publishing`. */
  function Begun(run: Run, texture: Content, portrait: Content, f: Faults, staged: bool): (Run, bool) {
    if staged && f.staging then (run, false)
    else
      var (recorded, ok) := Committed(run, Recorded(run, texture, portrait), f.record);
      if !ok then (recorded, false) else Committed(recorded, AdvanceStage(recorded, PublishStart, false), f.start)
  }

  /** The disk after a publication, and whether it returned normally. */
  function PublishOutcome(d: Disk, f: Faults): (Disk, bool)
    requires MayStart(d) && PlausibleFaults(f)
  {
    var (texture, portrait) := Assets(d.run).value;
    var (started, begun) := Begun(d.run, texture, portrait, f, d.target.None?);
    if !begun then (d.(run := started), false)
    else
      var placed := Place(d.target, Expected(texture, portrait), f);
      if !placed.goesOn then (Undone(Disk(started, placed.target), placed.installed, f), false)
      else
        var (done, ok) := Committed(started, AdvanceStage(started, Publish, false), f.finish);
        if ok then (Disk(done, placed.target), true)
        else (Undone(Disk(done, placed.target), placed.installed, f), false)
  }

  // ---------------------------------------------------------------- crash states

  /** What the publish command checks on a run that is already published. */
  ghost predicate PublishedIntact(d: Disk) {
    && Assets(d.run).Some?
    && ReadArtifact(d.run, PublicationRecord) == Ok(Publication(Assets(d.run).value.0, Assets(d.run).value.1))
    && d.target == Some(ExpectedHere(d))
  }

  /** Recovery will bring this disk back to an unpublished, rolled-back run. */
  ghost predicate Recoverable(d: Disk) {
    && d.run.claim.None? && Rollback !in d.run.completed
    && (d.target.Some? ==>
        && Assets(d.run).Some?
        && ReadArtifact(d.run, PublicationRecord) == Ok(Publication(Assets(d.run).value.0, Assets(d.run).value.1))
        && d.target.value == Expected(Assets(d.run).value.0, Assets(d.run).value.1))
  }

  /** A run in state `publishing` with everything on record that recovery needs. */
  ghost predicate InFlight(run: Run, texture: Content, portrait: Content) {
    && run.state == Publishing && run.claim.None?
    && Rollback !in run.completed && SpriteRun.Publish !in run.completed
    && Assets(run) == Some((texture, portrait))
    && ReadArtifact(run, PublicationRecord) == Ok(Publication(texture, portrait))
  }

  /** The directory is being deleted: some expected files are gone, the rest are intact. */
  ghost predicate HalfRemoved(target: Option<Directory>, expected: Directory) {
    exists n: nat :: 0 < n <= |NAMES| && target == Some(Partly(expected, n))
  }

  /** A crash leaves the images as they were; in state `publishing` it leaves a recoverable disk,
      or a directory this call did not put there, or one whose deletion was under way. */
  ghost predicate CrashSafe(d: Disk, expected: Directory, rival: Option<Directory>) {
    && Sound(d.run) && (Assets(d.run).Some? ==> expected == ExpectedHere(d))
    && (d.run.state == Publishing ==>
          || Recoverable(d)
          || HalfRemoved(d.target, expected)
          || (d.target == rival && Recoverable(d.(target := None))))
  }

  ghost function ExpectedHere(d: Disk): Directory
    requires Assets(d.run).Some?
  {
    Expected(Assets(d.run).value.0, Assets(d.run).value.1)
  }

  ghost predicate AllCrashSafe(trail: seq<Disk>, from: nat, expected: Directory, rival: Option<Directory>) {
    forall i :: from <= i < |trail| ==> CrashSafe(trail[i], expected, rival)
  }

  lemma RecordingIsSafe(run: Run, texture: Content, portrait: Content, target: Option<Directory>, f: Faults)
    requires run.state == HumanApproved && Sound(run) && Assets(run) == Some((texture, portrait))
    ensures var created := CreateFile(run, PublicationRecord, Publication(texture, portrait));
            created.Ok? ==> CrashSafe(Disk(created.value, target), Expected(texture, portrait), f.rival)
    ensures var recorded := Recorded(run, texture, portrait);
            recorded.Ok? ==>
              && CrashSafe(Disk(recorded.value, target), Expected(texture, portrait), f.rival)
              && recorded.value.state == run.state && recorded.value.completed == run.completed
              && recorded.value.claim == run.claim && Assets(recorded.value) == Assets(run) && Sound(recorded.value)
              && ReadArtifact(recorded.value, PublicationRecord) == Ok(Publication(texture, portrait))
  {
  }

  lemma StartIsSafe(run: Run, texture: Content, portrait: Content, target: Option<Directory>, f: Faults)
    requires run.state == HumanApproved && Sound(run) && run.claim.None? && Assets(run) == Some((texture, portrait))
    requires Rollback !in run.completed && SpriteRun.Publish !in run.completed && PublishStart !in run.completed
    requires ReadArtifact(run, PublicationRecord) == Ok(Publication(texture, portrait))
    requires target.Some? ==> target.value == Expected(texture, portrait)
    ensures var (started, ok) := Committed(run, AdvanceStage(run, PublishStart, false), f.start);
            && CrashSafe(Disk(started, target), Expected(texture, portrait), f.rival)
            && (ok ==> InFlight(started, texture, portrait) && Sound(started))
  {
    hide Expected, Sound;
    if AdvanceStage(run, PublishStart, false).Ok? {
      AdvanceSound(run, PublishStart, false);
    }
  }

  lemma FinishIsSafe(run: Run, texture: Content, portrait: Content, target: Option<Directory>, f: Faults)
    requires InFlight(run, texture, portrait) && CrashSafe(Disk(run, target), Expected(texture, portrait), f.rival)
    ensures var done := Committed(run, AdvanceStage(run, SpriteRun.Publish, false), f.finish).0;
            && CrashSafe(Disk(done, target), Expected(texture, portrait), f.rival)
            && done.claim.None? && Rollback !in done.completed
  {
    hide Sound;
    if AdvanceStage(run, SpriteRun.Publish, false).Ok? {
      AdvanceSound(run, SpriteRun.Publish, false);
    }
  }

  lemma RollbackIsSafe(run: Run, target: Option<Directory>, expected: Directory, rival: Option<Directory>)
    requires Sound(run) && Rollback !in run.completed
             && (Assets(run).Some? ==> expected == ExpectedHere(Disk(run, target)))
    ensures var back := AdvanceStage(run, Rollback, false);
            back.Ok? ==> back.value.state == RolledBack && CrashSafe(Disk(back.value, target), expected, rival)
  {
    hide Sound, Expected;
    if AdvanceStage(run, Rollback, false).Ok? {
      AdvanceSound(run, Rollback, false);
    }
  }

  // ---------------------------------------------------------------- failure atomicity

  predicate CleansUp(f: Faults) { f.removal.Removes? && f.rollback == Commits }

  /** The first manifest checkpoint is attempted: staging and the publication record went through. */
  predicate ReachesStart(d: Disk, f: Faults)
    requires MayStart(d)
  {
    && !(d.target.None? && f.staging)
    && f.record == Commits
    && Recorded(d.run, Assets(d.run).value.0, Assets(d.run).value.1).Ok?
  }

  function PlacedBy(d: Disk, f: Faults): Placed
    requires MayStart(d)
  {
    Place(d.target, Expected(Assets(d.run).value.0, Assets(d.run).value.1), f)
  }

  /** The last manifest checkpoint is attempted. */
  predicate ReachesFinish(d: Disk, f: Faults)
    requires MayStart(d)
  {
    ReachesStart(d, f) && f.start == Commits && PlacedBy(d, f).goesOn
  }

  /** Every call ends one of these ways.  The table is what a reader of the command can rely on,
      and it is derived from the steps, not written into them. */
  lemma OutcomeByCase(d: Disk, f: Faults)
    requires MayStart(d) && Sound(d.run) && PlausibleFaults(f)
    ensures var (after, ok) := PublishOutcome(d, f);
            var entered := ReachesStart(d, f) && f.start == Commits;
            var finish := ReachesFinish(d, f);
            && (ok <==> finish && f.finish == Commits)
            && (ok ==> after.run.state == Published && after.target == Some(ExpectedHere(d)))
            && (!ReachesStart(d, f) || f.start == FailsBefore ==>
                after.run.state == HumanApproved && after.target == d.target)
            && (ReachesStart(d, f) && f.start == FailsAfter ==>
                after.run.state == Publishing && after.target == d.target)
            && (finish && f.finish == FailsAfter ==> after.run.state == Published)
            && (entered && !(finish && f.finish != FailsBefore) && CleansUp(f) ==> after.run.state == RolledBack)
            && (entered && !ok && PlacedBy(d, f).installed && CleansUp(f) ==> after.target.None?)
            && (entered && !ok && !PlacedBy(d, f).installed ==> after.target == PlacedBy(d, f).target)
            && (entered && !ok && PlacedBy(d, f).installed && !CleansUp(f) && !f.removal.Removes? ==>
                  after.target == if f.removal.SyncFails? then None
                                  else Some(Partly(ExpectedHere(d), f.removal.deleted)))
  {
    hide Partly, Expected, ReadArtifact;
    var (texture, portrait) := Assets(d.run).value;
    var (started, begun) := Begun(d.run, texture, portrait, f, d.target.None?);
    if begun {
      FromPublishing(started);
    }
  }

  /** What a publication that returns has made public: the texture as `texture.png`, the portrait as
      `portrait.png`, the record on file as `publication.json`, and nothing else. */
  lemma PublishedFiles(d: Disk, f: Faults)
    requires MayStart(d) && PlausibleFaults(f) && PublishOutcome(d, f).1
    ensures var after := PublishOutcome(d, f).0;
            && after.target.Some?
            && after.target.value.Keys == {"texture.png", "portrait.png", "publication.json"}
            && Texture in d.run.files && after.target.value["texture.png"] == d.run.files[Texture]
            && Portrait in d.run.files && after.target.value["portrait.png"] == d.run.files[Portrait]
            && PublicationRecord in after.run.files
            && after.target.value["publication.json"] == after.run.files[PublicationRecord]
            && after.run.files[PublicationRecord] == Publication(d.run.files[Texture], d.run.files[Portrait])
  {
    var (texture, portrait) := Assets(d.run).value;
    assert d.run.files[Texture] == texture && d.run.files[Portrait] == portrait;
    ExpectedFiles(texture, portrait);
    RecordStays(d.run, texture, portrait, f, d.target.None?);
    hide Expected, Begun, ReadArtifact, Assets;
  }

  lemma ExpectedFiles(texture: Content, portrait: Content)
    ensures var files := Expected(texture, portrait);
            && files.Keys == {"texture.png", "portrait.png", "publication.json"}
            && files["texture.png"] == texture && files["portrait.png"] == portrait
            && files["publication.json"] == Publication(texture, portrait)
  {
  }

  /** The record is on file once publishing has begun, and the last checkpoint leaves it there. */
  lemma RecordStays(run: Run, texture: Content, portrait: Content, f: Faults, staged: bool)
    requires Begun(run, texture, portrait, f, staged).1
    ensures var started := Begun(run, texture, portrait, f, staged).0;
            && PublicationRecord in started.files && started.files[PublicationRecord] == Publication(texture, portrait)
            && Committed(started, AdvanceStage(started, SpriteRun.Publish, false), f.finish).0.files == started.files
  {
  }

  lemma FromPublishing(run: Run)
    requires run.state == Publishing && run.claim.None? && Rollback !in run.completed
             && SpriteRun.Publish !in run.completed
    ensures var done := AdvanceStage(run, SpriteRun.Publish, false);
            done.Ok? && done.value.state == Published && AdvanceStage(done.value, Rollback, false).Err?
    ensures var back := AdvanceStage(run, Rollback, false);
            back.Ok? && back.value.state == RolledBack
  {
  }

  /** A failed call whose own clean-up succeeds is atomic: a directory there before is untouched,
      where there was none there is none (or a rival's), and the run is `human_approved` if
      publishing had not begun, `rolled_back` if it had.  This holds exactly when no manifest
      checkpoint took effect and then raised. */
  lemma FailureAtomicIff(d: Disk, f: Faults)
    requires MayStart(d) && Sound(d.run) && PlausibleFaults(f) && CleansUp(f) && !PublishOutcome(d, f).1
    ensures var after := PublishOutcome(d, f).0;
            var entered := ReachesStart(d, f) && f.start != FailsBefore;
            (&& after.run.state == (if entered then RolledBack else HumanApproved)
             && (d.target.Some? ==> after.target == d.target)
             && (d.target.None? ==> after.target.None? || after.target == f.rival))
            <==>
            !(ReachesStart(d, f) && f.start == FailsAfter) && !(ReachesFinish(d, f) && f.finish == FailsAfter)
  {
    hide PublishOutcome, Expected;
    OutcomeByCase(d, f);
  }

  /** A directory with anything in it that another writer put there first stays as that writer left
      it, whatever fails; the publication only returns if it holds the very files. */
  lemma RivalIsLeftAlone(d: Disk, f: Faults)
    requires MayStart(d) && Sound(d.run) && PlausibleFaults(f)
    requires d.target.None? && f.rival.Some? && f.rival.value.Keys != {}
    ensures var (after, ok) := PublishOutcome(d, f);
            && (after.target == if ReachesStart(d, f) && f.start == Commits then f.rival else None)
            && (ok ==> f.rival.value.Keys == {"texture.png", "portrait.png", "publication.json"})
  {
    OutcomeByCase(d, f);
    assert f.rival.value != map[] && !PlacedBy(d, f).installed && PlacedBy(d, f).target == f.rival;
    var (texture, portrait) := Assets(d.run).value;
    ExpectedFiles(texture, portrait);
    hide Expected, PublishOutcome, Assets, Place;
  }

  /** A run that publishing has taken on is never left marked as failed. */
  lemma NotMarkedFailed(d: Disk, f: Faults)
    requires MayStart(d) && PlausibleFaults(f)
    ensures var after := PublishOutcome(d, f).0;
            after.run.state in {Publishing, Published, RolledBack} ==> !after.run.failed
  {
    var (texture, portrait) := Assets(d.run).value;
    var (started, begun) := Begun(d.run, texture, portrait, f, d.target.None?);
    BegunUnmarked(d.run, texture, portrait, f, d.target.None?);
    CheckpointUnmarked(started, SpriteRun.Publish, f.finish);
    CheckpointUnmarked(started, Rollback, f.rollback);
    CheckpointUnmarked(Committed(started, AdvanceStage(started, SpriteRun.Publish, false), f.finish).0, Rollback,
                       f.rollback);
    hide Expected, Partly, ReadArtifact, Assets, Begun, AdvanceStage, Committed;
  }

  ghost predicate Unmarked(run: Run) { run.state in {Publishing, Published, RolledBack} ==> !run.failed }

  lemma BegunUnmarked(run: Run, texture: Content, portrait: Content, f: Faults, staged: bool)
    requires run.state == HumanApproved
    ensures Unmarked(Begun(run, texture, portrait, f, staged).0)
  {
  }

  lemma CheckpointUnmarked(run: Run, stage: Stage, c: Commit)
    requires Unmarked(run) && stage in {SpriteRun.Publish, Rollback}
    ensures Unmarked(Committed(run, AdvanceStage(run, stage, false), c).0)
  {
  }

  /** After any call, `published` comes with an intact directory, unless the last checkpoint
      raised after taking effect and the clean-up then deleted what it had installed. */
  lemma PublishedIntactIff(d: Disk, f: Faults)
    requires MayStart(d) && Sound(d.run) && PlausibleFaults(f) && PublishOutcome(d, f).0.run.state == Published
    ensures PublishOutcome(d, f).0.target == Some(ExpectedHere(d)) <==>
            !(f.finish == FailsAfter && PlacedBy(d, f).installed && f.removal != StopsAfter(0))
  {
    OutcomeByCase(d, f);
    var (texture, portrait) := Assets(d.run).value;
    StillThere(texture, portrait);
    hide Expected, Begun, AdvanceStage, ReachesStart, Sound;
    hide PublishOutcome, Partly;
  }

  lemma StillThere(texture: Content, portrait: Content)
    ensures Partly(Expected(texture, portrait), 0) == Expected(texture, portrait)
    ensures forall n | 0 < n <= |NAMES| :: Partly(Expected(texture, portrait), n) != Expected(texture, portrait)
  {
    forall n | 0 < n <= |NAMES| ensures Partly(Expected(texture, portrait), n) != Expected(texture, portrait) {
      assert NAMES[0] !in Partly(Expected(texture, portrait), n);
    }
  }

  /** The rename took effect but flushing the parent directory failed: the handler tries to
      delete the staged copy, which the rename has consumed, so the whole publication is undone. */
  lemma SyncFailureRollsBack(d: Disk, f: Faults)
    requires MayStart(d) && Sound(d.run) && PlausibleFaults(f) && CleansUp(f)
    requires ReachesStart(d, f) && f.start == Commits && d.target.None? && f.rival.None? && !f.replace && f.sync
    ensures var (after, ok) := PublishOutcome(d, f);
            !ok && after.run.state == RolledBack && after.target.None?
  {
    hide PublishOutcome, Expected;
    OutcomeByCase(d, f);
  }

  /** The last checkpoint replaces the manifest and then raises: the run says `published` for
      good and the directory it published is gone. */
  lemma PublishedYetRemoved(texture: Content, portrait: Content) returns (d: Disk, f: Faults)
    ensures MayStart(d) && Sound(d.run) && CleansUp(f) && d.run.state == HumanApproved
    ensures PublishOutcome(d, f).0.run.state == Published && PublishOutcome(d, f).0.target.None?
  {
    var run := Run(HumanApproved, {AutoQc}, map[Texture := texture, Portrait := portrait], {Texture, Portrait}, None,
                   false, false);
    d := Disk(run, None);
    f := Faults(false, Commits, Commits, None, false, false, FailsAfter, Removes, Commits);
    hide PublishOutcome, Expected;
    OutcomeByCase(d, f);
  }

  /** The first checkpoint replaces the manifest and then raises: the clean-up does not know that
      publishing has begun, and the run stays in `publishing`. */
  lemma PublishingYetGivenUp(texture: Content, portrait: Content) returns (d: Disk, f: Faults)
    ensures MayStart(d) && Sound(d.run) && PlausibleFaults(f) && CleansUp(f) && ReachesStart(d, f)
            && f.start == FailsAfter
    ensures !PublishOutcome(d, f).1 && PublishOutcome(d, f).0.run.state == Publishing
            && PublishOutcome(d, f).0.target.None?
  {
    var run := Run(HumanApproved, {AutoQc}, map[Texture := texture, Portrait := portrait], {Texture, Portrait}, None,
                   false, false);
    d := Disk(run, None);
    f := Faults(false, Commits, FailsAfter, None, false, false, Commits, Removes, Commits);
    hide PublishOutcome, Expected;
    OutcomeByCase(d, f);
  }

  /** A clean-up that stopped part way leaves a directory recovery refuses to touch: it deletes
      only a complete, exact copy. */
  lemma HalfRemovedIsStuck(d: Disk)
    requires Assets(d.run).Some? && HalfRemoved(d.target, ExpectedHere(d))
    ensures !Recoverable(d)
  {
    StillThere(Assets(d.run).value.0, Assets(d.run).value.1);
  }

  // ---------------------------------------------------------------- recovery

  /** The disk after a recovery, and whether it returned normally. */
  function RecoverOutcome(d: Disk, removal: Removal, rollback: Commit): (Disk, bool)
    requires removal.StopsAfter? ==> removal.deleted < |NAMES|
  {
    if d.run.state != Publishing then (d, true)
    else if d.target.None? then RolledBackOutcome(d, rollback)
    else if Assets(d.run).None? then (d, false)
    else
      var (texture, portrait) := Assets(d.run).value;
      if ReadArtifact(d.run, PublicationRecord) != Ok(Publication(texture, portrait)) then (d, false)
      else if d.target.value != Expected(texture, portrait) then (d, false)
      else
        match removal
        case StopsAfter(n) => (d.(target := Some(Partly(d.target.value, n))), false)
        case SyncFails => (d.(target := None), false)
        case Removes => RolledBackOutcome(d.(target := None), rollback)
  }

  function RolledBackOutcome(d: Disk, rollback: Commit): (Disk, bool) {
    var (run, ok) := Committed(d.run, AdvanceStage(d.run, Rollback, false), rollback);
    (d.(run := run), ok)
  }

  /** A recovered run is not marked as failed either. */
  lemma RecoveredNotMarkedFailed(d: Disk, removal: Removal, rollback: Commit)
    requires d.run.state == Publishing && Sound(d.run) && (removal.StopsAfter? ==> removal.deleted < |NAMES|)
    ensures var after := RecoverOutcome(d, removal, rollback).0;
            after.run.state == RolledBack ==> !after.run.failed
  {
    hide Expected, Partly, ReadArtifact, Assets;
    assert Rollback !in d.run.completed;
    hide Sound;
  }

  /** On a run that is not in state `publishing`, and on a directory that is not exactly what the
      record and the images say, recovery changes nothing. */
  lemma RecoveryLeavesAlone(d: Disk, removal: Removal, rollback: Commit)
    requires removal.StopsAfter? ==> removal.deleted < |NAMES|
    ensures d.run.state != Publishing ==> RecoverOutcome(d, removal, rollback) == (d, true)
    ensures d.run.state == Publishing && d.target.Some?
            && (d.target.value.Keys != {"texture.png", "portrait.png", "publication.json"}
                || ReadArtifact(d.run, Texture) != Ok(d.target.value["texture.png"])
                || ReadArtifact(d.run, Portrait) != Ok(d.target.value["portrait.png"])
                || ReadArtifact(d.run, PublicationRecord) != Ok(d.target.value["publication.json"])
                || d.target.value["publication.json"]
                   != Publication(d.target.value["texture.png"], d.target.value["portrait.png"])) ==>
              RecoverOutcome(d, removal, rollback) == (d, false)
  {
    if d.target.Some? && Assets(d.run).Some? {
      ExpectedFiles(Assets(d.run).value.0, Assets(d.run).value.1);
    }
    hide Expected, Partly, RolledBackOutcome;
  }

  ghost predicate Clean(d: Disk) { d.run.state == RolledBack && d.target.None? }

  /** Recovering a run in state `publishing` either cleans up completely or changes nothing,
      exactly when the disk is not recoverable at all, or the only effect it can have is complete:
      no directory is deleted before the roll-back fails, and none is deleted part way.  It
      returns normally exactly when it cleans up and no step fails. */
  lemma RecoverAtomicIff(d: Disk, removal: Removal, rollback: Commit)
    requires d.run.state == Publishing && Sound(d.run) && (removal.StopsAfter? ==> removal.deleted < |NAMES|)
    ensures var (after, ok) := RecoverOutcome(d, removal, rollback);
            && (Clean(after) || after == d <==>
                  !Recoverable(d) || d.target.None? || removal == StopsAfter(0)
                  || (removal.Removes? && rollback != FailsBefore))
            && (ok <==> Recoverable(d) && (d.target.Some? ==> removal.Removes?) && rollback.Commits?)
            && (ok ==> Clean(after))
  {
    FromPublishing(d.run);
    if Assets(d.run).Some? {
      StillThere(Assets(d.run).value.0, Assets(d.run).value.1);
    }
    hide AdvanceStage, Expected, Partly, Sound, ReadArtifact;
  }

  /** Whatever moment of a publication the process dies at: recovery either returns with the run
      rolled back and no directory, or refuses and changes nothing, and it refuses exactly the
      directory of another writer and the one that was being deleted.  Where recovery itself is
      cut short, the disk it leaves is again one of these. */
  lemma CrashThenRecovery(d: Disk, expected: Directory, rival: Option<Directory>, removal: Removal, rollback: Commit)
    requires CrashSafe(d, expected, rival) && d.run.state == Publishing
    requires removal.StopsAfter? ==> removal.deleted < |NAMES|
    ensures CrashSafe(RecoverOutcome(d, removal, rollback).0, expected, rival)
    ensures var (after, ok) := RecoverOutcome(d, Removes, Commits);
            && (ok <==> Recoverable(d))
            && (ok ==> Clean(after))
            && (!ok ==> after == d && d.target.Some? && (HalfRemoved(d.target, expected) || d.target == rival))
  {
    RecoverAtomicIff(d, Removes, Commits);
    RecoveryStaysSafe(d, expected, rival, removal, rollback);
    hide RecoverOutcome, Sound, AdvanceStage, Expected;
  }

  lemma RecoveryStaysSafe(d: Disk, expected: Directory, rival: Option<Directory>, removal: Removal, rollback: Commit)
    requires CrashSafe(d, expected, rival) && d.run.state == Publishing
    requires removal.StopsAfter? ==> removal.deleted < |NAMES|
    ensures CrashSafe(RecoverOutcome(d, removal, rollback).0, expected, rival)
  {
    FromPublishing(d.run);
    AdvanceSound(d.run, Rollback, false);
    hide Sound, AdvanceStage, Expected;
    if removal.StopsAfter? && d.target == Some(expected) {
      assert Partly(expected, 0) == expected;
    }
  }

  // ---------------------------------------------------------------- the commands

  class Publisher {
    var run: Run
    var target: Option<Directory>
    ghost var trail: seq<Disk>

    constructor (run: Run, target: Option<Directory>)
      ensures this.run == run && this.target == target && trail == []
    {
      this.run, this.target, this.trail := run, target, [];
    }

    ghost function Now(): Disk
      reads this
    {
      Disk(run, target)
    }

    /** One manifest write. */
    method Checkpoint(stage: Stage, c: Commit) returns (ok: bool)
      modifies this
      ensures (run, ok) == Committed(old(run), AdvanceStage(old(run), stage, false), c)
      ensures target == old(target)
      ensures trail == old(trail) || trail == old(trail) + [Now()]
    {
      var r := AdvanceStage(run, stage, false);
      if r.Err? || c == FailsBefore {
        return false;
      }
      run := r.value;
      trail := trail + [Now()];
      return c == Commits;
    }

    /** Writing the publication record: the file first, its registration second. */
    method WriteRecord(content: Content, c: Commit) returns (ok: bool)
      modifies this
      ensures (run, ok) == Committed(old(run), WriteArtifact(old(run), PublicationRecord, content), c)
      ensures target == old(target)
      ensures trail == old(trail)
           || (CreateFile(old(run), PublicationRecord, content).Ok?
               && trail == old(trail) + [Disk(CreateFile(old(run), PublicationRecord, content).value, target), Now()])
    {
      var created := CreateFile(run, PublicationRecord, content);
      if created.Err? || c == FailsBefore {
        return false;
      }
      ghost var made := Disk(created.value, target);
      run := Register(created.value, PublicationRecord);
      trail := trail + [made, Now()];
      return c == Commits;
    }

    /** Deletes the public directory after checking that it holds exactly the expected files.
        `refused` means it did not, and nothing was deleted. */
    method RemoveDirectory(expected: Directory, removal: Removal) returns (refused: bool, ok: bool)
      requires target.Some? && (removal.StopsAfter? ==> removal.deleted < |NAMES|)
      modifies this
      ensures run == old(run) && refused == (old(target) != Some(expected))
      ensures refused ==> target == old(target) && trail == old(trail) && !ok
      ensures !refused ==> ok == removal.Removes?
      ensures !refused ==> target == if removal.StopsAfter? then Some(Partly(expected, removal.deleted)) else None
      ensures old(trail) <= trail
      ensures forall i :: |old(trail)| <= i < |trail| ==>
                trail[i].run == run && (trail[i].target.None? || HalfRemoved(trail[i].target, expected))
    {
      refused, ok := target != Some(expected), false;
      if refused {
        return;
      }
      var n := 0;
      assert Partly(expected, 0) == expected;
      while n < |NAMES|
        invariant n <= |NAMES| && run == old(run) && target == Some(Partly(expected, n))
        invariant removal.StopsAfter? ==> n <= removal.deleted
        invariant old(trail) <= trail
        invariant forall i :: |old(trail)| <= i < |trail| ==>
                    trail[i].run == run && HalfRemoved(trail[i].target, expected)
      {
        if removal.StopsAfter? && n == removal.deleted {
          return;
        }
        target := Some(target.value - {NAMES[n]});
        assert Partly(expected, n) - {NAMES[n]} == Partly(expected, n + 1);
        n := n + 1;
        trail := trail + [Now()];
      }
      target := None;
      trail := trail + [Now()];
      return false, removal.Removes?;
    }

    method Begin(texture: Content, portrait: Content, f: Faults, staged: bool) returns (begun: bool)
      requires run.state == HumanApproved && Sound(run) && Assets(run) == Some((texture, portrait))
      requires target.Some? ==> target.value == Expected(texture, portrait)
      modifies this
      ensures (run, begun) == Begun(old(run), texture, portrait, f, staged) && target == old(target)
      ensures old(trail) <= trail && AllCrashSafe(trail, |old(trail)|, Expected(texture, portrait), f.rival)
      ensures begun ==> InFlight(run, texture, portrait) && Sound(run)
    {
      if staged && f.staging {
        return false;
      }
      ghost var was := run;
      begun := WriteRecord(Publication(texture, portrait), f.record);
      RecordingIsSafe(was, texture, portrait, target, f);
      assert was.claim.None? && Rollback !in was.completed && SpriteRun.Publish !in was.completed
          && PublishStart !in was.completed;
      hide Expected, CrashSafe, WriteArtifact, CreateFile, ReadArtifact, Assets, Sound, AdvanceStage, InFlight;
      if begun {
        ghost var recorded := run;
        begun := Checkpoint(PublishStart, f.start);
        StartIsSafe(recorded, texture, portrait, target, f);
      }
    }

    method PutInPlace(texture: Content, portrait: Content, f: Faults) returns (installed: bool, goesOn: bool)
      requires Sound(run) && InFlight(run, texture, portrait)
               && (target.Some? ==> target.value == Expected(texture, portrait))
      modifies this
      ensures Placed(target, installed, goesOn) == Place(old(target), Expected(texture, portrait), f) && run == old(run)
      ensures old(trail) <= trail && AllCrashSafe(trail, |old(trail)|, Expected(texture, portrait), f.rival)
    {
      var expected := Expected(texture, portrait);
      installed, goesOn := false, true;
      if target.Some? {
        return;
      }
      target := f.rival;
      trail := trail + [Now()];
      if target.Some? && target.value != map[] {
        // The rename is refused because a directory is already there.
        goesOn := target.value == expected && !f.sync;
      } else if f.replace {
        goesOn := false;
      } else {
        target, installed := Some(expected), true;
        trail := trail + [Now()];
        // A flush that fails after the rename is not retried: the staged copy is gone.
        goesOn := !f.sync;
      }
    }

    method Undo(expected: Directory, installed: bool, f: Faults)
      requires PlausibleFaults(f) && Rollback !in run.completed && run.claim.None?
      requires installed ==> target == Some(expected)
      requires CrashSafe(Now(), expected, f.rival)
      modifies this
      ensures Now() == Undone(old(Now()), installed, f)
      ensures old(trail) <= trail && AllCrashSafe(trail, |old(trail)|, expected, f.rival)
    {
      hide AdvanceStage, Sound, Expected, ReadArtifact, Assets;
      if installed && target.Some? {
        var refused, removed := RemoveDirectory(expected, f.removal);
        if !removed {
          return;
        }
      }
      RollbackIsSafe(run, target, expected, f.rival);
      var rolled := Checkpoint(Rollback, f.rollback);
    }

    /** Staging, checkpoints and clean-up in turn, under whatever fails. */
    method TryPublish(f: Faults) returns (ok: bool)
      requires MayStart(Now()) && Sound(run) && PlausibleFaults(f)
      modifies this
      ensures (Now(), ok) == PublishOutcome(old(Now()), f)
      ensures old(trail) <= trail
      ensures AllCrashSafe(trail, |old(trail)|, old(ExpectedHere(Now())), f.rival)
    {
      var (texture, portrait) := Assets(run).value;
      var begun := Begin(texture, portrait, f, target.None?);
      if !begun {
        return false;
      }
      hide Begun, Undone, AllCrashSafe, AdvanceStage, Sound, Assets, Expected, WriteArtifact, ReadArtifact;
      ghost var started := run;
      var installed, goesOn := PutInPlace(texture, portrait, f);
      ok := false;
      if goesOn {
        ok := Checkpoint(Publish, f.finish);
        FinishIsSafe(started, texture, portrait, target, f);
        if ok {
          return;
        }
      }
      Undo(Expected(texture, portrait), installed, f);
      ok := false;
    }

    /** The publish command, from the point where the run has been found approved.  Its effect
        is the reference outcome, a crash after any of its effects is safe, and when it returns
        the public files are the run's own. */
    method PublishRun(f: Faults) returns (ok: bool)
      requires MayStart(Now()) && Sound(run) && PlausibleFaults(f)
      modifies this
      ensures (Now(), ok) == PublishOutcome(old(Now()), f)
      ensures ok ==>
                && run.state == Published && target.Some?
                && target.value.Keys == {"texture.png", "portrait.png", "publication.json"}
                && Texture in old(run.files) && target.value["texture.png"] == old(run.files)[Texture]
                && Portrait in old(run.files) && target.value["portrait.png"] == old(run.files)[Portrait]
                && PublicationRecord in run.files && target.value["publication.json"] == run.files[PublicationRecord]
                && run.files[PublicationRecord] == Publication(old(run.files)[Texture], old(run.files)[Portrait])
      ensures old(trail) <= trail
      ensures AllCrashSafe(trail, |old(trail)|, old(ExpectedHere(Now())), f.rival)
    {
      ghost var before := Now();
      OutcomeByCase(before, f);
      if PublishOutcome(before, f).1 {
        PublishedFiles(before, f);
      }
      hide PublishOutcome, Sound, MayStart, AllCrashSafe, Expected;
      ok := TryPublish(f);
    }

    /** The publish command.  On a published run it only checks; on a run that is not approved,
        lacks its images, or whose directory holds something else it refuses. */
    method PublishCommand(f: Faults) returns (r: Result<RunState>)
      requires Sound(run) && PlausibleFaults(f)
      modifies this
      ensures old(trail) <= trail
      ensures !old(MayStart(Now())) ==> Now() == old(Now()) && trail == old(trail)
      ensures old(run.state) == Published ==> (r.Ok? <==> old(PublishedIntact(Now())))
      ensures old(run.state) != Published && !old(MayStart(Now())) ==> r.Err?
      ensures old(MayStart(Now())) ==>
                && Now() == PublishOutcome(old(Now()), f).0
                && (r.Ok? <==> PublishOutcome(old(Now()), f).1)
                && (r.Ok? ==> r.value == Published)
                && AllCrashSafe(trail, |old(trail)|, old(ExpectedHere(Now())), f.rival)
    {
      var assets := Assets(run);
      if run.state == Published {
        var record := ReadArtifact(run, PublicationRecord);
        if record.Err? || assets.None? {
          return Err(PublishedAssetInvalid);
        }
        var (texture, portrait) := assets.value;
        if record.value != Publication(texture, portrait) || target != Some(Expected(texture, portrait)) {
          return Err(PublishedAssetInvalid);
        }
        return Ok(Published);
      }
      if run.state != HumanApproved {
        return Err(PublishStateInvalid);
      }
      if assets.None? {
        return Err(ArtifactMissing);
      }
      if target.Some? && target.value != Expected(assets.value.0, assets.value.1) {
        return Err(TargetConflict);
      }
      ghost var before := Now();
      assert MayStart(before);
      hide PublishOutcome, Sound, Assets, Expected, AllCrashSafe;
      var ok := PublishRun(f);
      if ok {
        OutcomeByCase(before, f);
        return Ok(run.state);
      }
      return Err(PublishFailed);
    }

    /** The recover command.  Only a run in state `publishing` is changed. */
    method RecoverRun(removal: Removal, rollback: Commit) returns (ok: bool)
      requires Sound(run) && (removal.StopsAfter? ==> removal.deleted < |NAMES|)
      modifies this
      ensures (Now(), ok) == RecoverOutcome(old(Now()), removal, rollback)
      ensures old(trail) <= trail
      ensures old(run.state) != Publishing ==> trail == old(trail)
      ensures forall i :: |old(trail)| <= i < |trail| ==> Sound(trail[i].run)
      ensures old(run.state) == Publishing && old(Recoverable(Now())) ==>
                forall i :: |old(trail)| <= i < |trail| && trail[i].run.state == Publishing ==>
                  Recoverable(trail[i]) || (old(target).Some? && HalfRemoved(trail[i].target, old(target).value))
    {
      hide AdvanceStage, Expected, ReadArtifact;
      if run.state != Publishing {
        return true;
      }
      if target.Some? {
        var record := ReadArtifact(run, PublicationRecord);
        var assets := Assets(run);
        if record.Err? || assets.None? {
          return false;
        }
        var (texture, portrait) := assets.value;
        if record.value != Publication(texture, portrait) {
          return false;
        }
        var refused, removed := RemoveDirectory(Expected(texture, portrait), removal);
        if !removed {
          return false;
        }
      }
      FromPublishing(run);
      AdvanceSound(run, Rollback, false);
      ok := Checkpoint(Rollback, rollback);
    }
  }
}
