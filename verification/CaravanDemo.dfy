/** Generating rounds and playing them until a stop, and the clean-up that always follows. */
module CaravanDemo {
  import opened Bags
  import opened CaravanPath
  import opened CaravanTimeline
  import opened CaravanRound
  import opened CaravanShape
  import opened CaravanScript

  // ---------------------------------------------------------------- generating one round

  datatype Problem =
    | WrongCount | SlotsNotCovered | SlugsNotUnique | RouteTooShort | PathRejected(why: Rejection)

  datatype Generated = Invalid(why: Problem) | Generated(plan: Plan, timeline: seq<Scheduled>)

  /** The path cannot be walked in a phase: there is none, or it has more corners than moves fit. */
  ghost predicate Unwalkable(path: seq<Tile>, maxPoints: int) {
    |path| == 0 || (|path| > 1 && |Corners(path)| > maxPoints)
  }

  method SampleWalk(path: seq<Tile>, maxPoints: int) returns (rejected: Option<Rejection>, walk: seq<Tile>)
    requires maxPoints >= 2
    ensures rejected.Some? <==> Unwalkable(path, maxPoints)
    ensures rejected.None? ==> WalkOf(path, walk, maxPoints)
  {
    hide Corners, IsSample, Balanced;
    var sample := SampleAxisPath(path, maxPoints);
    if sample.Rejected? {
      assert sample.why == EmptyPath || sample.why == TooManyCorners || sample.why == TooFewPoints;
      return Some(sample.why), [];
    }
    return None, sample.tiles;
  }

  method ResidentFrames(rs: seq<Resident>, start: real, seconds: real, outbound: bool)
    returns (rejected: Option<Rejection>, walks: seq<seq<Tile>>, frames: seq<Scheduled>)
    ensures rejected.Some? <==> exists i :: 0 <= i < |rs| && Unwalkable(FullPath(rs[i], outbound), MaxPoints(seconds))
    ensures rejected.None? ==>
              WalksOf(rs, walks, seconds, outbound) && frames == Legs(rs, walks, start, seconds, outbound)
  {
    rejected, walks, frames := None, [], [];
    hide Unwalkable, WalkOf, WalksOf, MaxPoints, FullPath, Leg, Legs;
    NoLegs(rs, start, seconds, outbound);
    for i := 0 to |rs|
      invariant |walks| == i && WalksOf(rs[..i], walks, seconds, outbound)
      invariant frames == Legs(rs[..i], walks, start, seconds, outbound)
      invariant forall j :: 0 <= j < i ==> !Unwalkable(FullPath(rs[j], outbound), MaxPoints(seconds))
    {
      var why, walk := SampleWalk(FullPath(rs[i], outbound), MaxPoints(seconds));
      if why.Some? {
        return why, [], [];
      }
      LegsOneMore(rs, i, walks, walk, start, seconds, outbound);
      walks, frames := walks + [walk], frames + Leg(rs[i], walk, start, seconds, outbound);
    }
    assert rs[..|rs|] == rs;
  }

  lemma NoLegs(rs: seq<Resident>, start: real, seconds: real, outbound: bool)
    ensures MaxPoints(seconds) >= 2 && WalksOf(rs[..0], [], seconds, outbound)
            && Legs(rs[..0], [], start, seconds, outbound) == []
  {
  }

  lemma LegsOneMore(
    rs: seq<Resident>, i: nat, walks: seq<seq<Tile>>, walk: seq<Tile>, start: real, seconds: real, outbound: bool)
    requires i < |rs| && |walks| == i
    ensures Legs(rs[..i + 1], walks + [walk], start, seconds, outbound)
         == Legs(rs[..i], walks, start, seconds, outbound) + Leg(rs[i], walk, start, seconds, outbound)
    ensures WalksOf(rs[..i], walks, seconds, outbound)
            && WalkOf(FullPath(rs[i], outbound), walk, MaxPoints(seconds)) ==>
              WalksOf(rs[..i + 1], walks + [walk], seconds, outbound)
  {
    hide MaxPoints, Leg, FullPath, IsSample;
    assert rs[..i + 1][..i] == rs[..i] && (walks + [walk])[..i] == walks;
  }

  ghost predicate OnSlots(rs: seq<Resident>) {
    (forall r :: r in rs ==> r.slot in VISITOR_SLOTS)
        && (forall t :: t in VISITOR_SLOTS ==> exists r :: r in rs && r.slot == t)
  }

  ghost predicate Walkable(rs: seq<Resident>, d: Durations) {
    forall r :: r in rs ==>
          !Unwalkable(r.path, MaxPoints(d.inbound)) && !Unwalkable(FullPath(r, true), MaxPoints(d.outbound))
  }

  function SlugOfResident(r: Resident): string { r.slug }

  /** Whether the number of different slugs equals the number of residents. */
  lemma SlugCount(rs: seq<Resident>)
    ensures |set r | r in rs :: r.slug| == |rs| <==> UniqueSlugs(rs)
  {
    var slugs := Map(rs, SlugOfResident);
    SetSize(slugs);
    var named := set r | r in rs :: r.slug;
    forall k ensures k in named <==> k in slugs {
      if k in slugs {
        var i :| 0 <= i < |slugs| && slugs[i] == k;
        assert rs[i] in rs && rs[i].slug == k;
      }
      if k in named {
        var r :| r in rs && r.slug == k;
        var i :| 0 <= i < |rs| && rs[i] == r;
        assert slugs[i] == k;
      }
    }
    assert named == set k | k in slugs;
  }

  method GenerateCycle(rs: seq<Resident>, d: Durations, visit: Visit, route: seq<Tile>) returns (r: Generated)
    requires Proper(d)
    ensures r.Generated? <==> |rs| == 4 && OnSlots(rs) && UniqueSlugs(rs) && |route| >= 2 && Walkable(rs, d)
    ensures r.Generated? ==>
              && Valid(r.plan) && r.plan.rs == rs && r.plan.d == d && r.plan.visit == visit && r.plan.route == route
              && r.timeline == Timeline(r.plan) && Scripted(r.timeline, rs, d, visit, route)
  {
    if |rs| != |VISITOR_SLOTS| {
      return Invalid(WrongCount);
    }
    if (set q | q in rs :: q.slot) != (set t | t in VISITOR_SLOTS) {
      SlotsMissed(rs);
      return Invalid(SlotsNotCovered);
    }
    SlotsMissed(rs);
    SlugCount(rs);
    if |set q | q in rs :: q.slug| != |rs| {
      return Invalid(SlugsNotUnique);
    }
    if |route| < 2 {
      return Invalid(RouteTooShort);
    }
    BothWays(rs, d);
    hide OnSlots, UniqueSlugs, Unwalkable, Walkable, FullPath, MaxPoints, WalksOf, Proper, Coming, Going, StableSort;
    hide Scripted;
    var rejected, inbound, frames := ComingFrames(rs, d, visit, route);
    if rejected.Some? {
      return Invalid(PathRejected(rejected.value));
    }
    var outbound, going;
    rejected, outbound, going := GoingFrames(rs, d, visit, route);
    if rejected.Some? {
      return Invalid(PathRejected(rejected.value));
    }
    r := Generated(Plan(rs, inbound, outbound, d, visit, route), StableSort(frames + going));
    RoundScripted(r.plan);
  }

  /** The frames made up to the opening of trading. */
  method ComingFrames(rs: seq<Resident>, d: Durations, visit: Visit, route: seq<Tile>)
    returns (rejected: Option<Rejection>, walks: seq<seq<Tile>>, frames: seq<Scheduled>)
    requires |route| >= 2
    ensures rejected.Some? <==> exists i :: 0 <= i < |rs| && Unwalkable(FullPath(rs[i], false), MaxPoints(d.inbound))
    ensures rejected.None? ==> WalksOf(rs, walks, d.inbound, false) && frames == Coming(rs, walks, d, visit, route)
  {
    hide Unwalkable, FullPath, MaxPoints, WalkOf, Legs, Idles, Snapshot, InboundAt, TradingAt;
    frames := [Snapshot(d, visit, route, 1), Snapshot(d, visit, route, 2)];
    var more;
    rejected, walks, more := ResidentFrames(rs, InboundAt(d), d.inbound, false);
    frames := frames + more + [Snapshot(d, visit, route, 3)] + Idles(rs, TradingAt(d) + 0.01);
  }

  /** The frames made from the way out on. */
  method GoingFrames(rs: seq<Resident>, d: Durations, visit: Visit, route: seq<Tile>)
    returns (rejected: Option<Rejection>, walks: seq<seq<Tile>>, frames: seq<Scheduled>)
    requires |route| >= 2
    ensures rejected.Some? <==> exists i :: 0 <= i < |rs| && Unwalkable(FullPath(rs[i], true), MaxPoints(d.outbound))
    ensures rejected.None? ==> WalksOf(rs, walks, d.outbound, true) && frames == Going(rs, walks, d, visit, route)
  {
    hide Unwalkable, FullPath, MaxPoints, WalkOf, Legs, Idles, Snapshot, OutboundAt, DepartedAt;
    frames := [Snapshot(d, visit, route, 4)];
    var more;
    rejected, walks, more := ResidentFrames(rs, OutboundAt(d), d.outbound, true);
    frames := frames + more + [Snapshot(d, visit, route, 5)] + Idles(rs, DepartedAt(d) + 0.01);
  }

  lemma SlotsMissed(rs: seq<Resident>)
    ensures (set q | q in rs :: q.slot) == (set t | t in VISITOR_SLOTS) <==> OnSlots(rs)
  {
    var slots, wanted := set q | q in rs :: q.slot, set t | t in VISITOR_SLOTS;
    assert forall r :: r in rs ==> r.slot in slots;
    if OnSlots(rs) {
      forall t ensures t in slots <==> t in wanted {
      }
    } else if slots == wanted {
      assert forall t :: t in VISITOR_SLOTS ==> t in slots;
      assert forall r :: r in rs ==> r.slot in wanted;
    }
  }

  lemma BothWays(rs: seq<Resident>, d: Durations)
    ensures Walkable(rs, d) <==>
            && !(exists i :: 0 <= i < |rs| && Unwalkable(FullPath(rs[i], false), MaxPoints(d.inbound)))
            && !(exists i :: 0 <= i < |rs| && Unwalkable(FullPath(rs[i], true), MaxPoints(d.outbound)))
  {
    hide Unwalkable, MaxPoints;
    assert forall i :: 0 <= i < |rs| ==> rs[i] in rs;
  }

  // ---------------------------------------------------------------- versions along a round

  /** The version of the last snapshot shown, or 0. */
  function LastVersion(fs: seq<Frame>): int {
    if fs == [] then 0
    else
      var last := fs[|fs| - 1];
      if last.Caravan? then last.version else LastVersion(fs[..|fs| - 1])
  }

  ghost predicate Rising(fs: seq<Scheduled>) {
    && (forall i :: 0 <= i < |fs| ==> fs[i].data.Caravan? && fs[i].data.version > 0)
    && (forall i, j :: 0 <= i < j < |fs| ==> fs[i].data.version < fs[j].data.version)
  }

  lemma {:induction false} LastVersionIs(fs: seq<Scheduled>)
    ensures var shots := Only(fs, Caravans);
            && (forall i :: 0 <= i < |shots| ==> shots[i].data.Caravan?)
            && LastVersion(Data(fs)) == if shots == [] then 0 else shots[|shots| - 1].data.version
  {
    if fs != [] {
      LastVersionIs(fs[..|fs| - 1]);
      assert Data(fs)[..|fs| - 1] == Data(fs[..|fs| - 1]);
    }
  }

  /** The version recorded is the highest shown in the round so far, and the next snapshot's is
      higher still. */
  lemma VersionsRise(p: Plan, n: nat)
    requires Valid(p) && n <= |FramesOf(p)|
    ensures var frames := FramesOf(p);
            var next := LastVersion(frames[..n]);
            && next >= 0
            && (forall f :: f in frames[..n] && f.Caravan? ==> f.visit == p.visit && f.version <= next)
            && (n < |frames| && frames[n].Caravan? ==> frames[n].version > next && frames[n].visit == p.visit)
  {
    SnapshotsRise(p);
    FramesOfValid(p);
    var tl := Timeline(p);
    hide Valid, Timeline, Rising, AllOf, Only, FramesOf, LastVersion, Data;
    SnapshotsSoFar(tl, p.visit, n);
    DataTake(tl, n);
  }

  lemma DataTake(fs: seq<Scheduled>, n: nat)
    requires n <= |fs|
    ensures Data(fs)[..n] == Data(fs[..n]) && |Data(fs)| == |fs|
    ensures n < |fs| ==> Data(fs)[n] == fs[n].data
  {
  }

  lemma SnapshotsRise(p: Plan)
    requires Valid(p)
    ensures Rising(Only(Timeline(p), Caravans)) && AllOf(Only(Timeline(p), Caravans), p.visit)
  {
    SnapshotsInOrder(p);
    hide Valid, Timeline, Only;
  }

  ghost predicate AllOf(fs: seq<Scheduled>, visit: Visit) {
    forall i :: 0 <= i < |fs| ==> fs[i].data.Caravan? ==> fs[i].data.visit == visit
  }

  lemma SnapshotsSoFar(fs: seq<Scheduled>, visit: Visit, n: nat)
    requires n <= |fs| && Rising(Only(fs, Caravans)) && AllOf(Only(fs, Caravans), visit)
    ensures var next := LastVersion(Data(fs[..n]));
            && next >= 0
            && (forall f :: f in Data(fs[..n]) && f.Caravan? ==> f.visit == visit && f.version <= next)
            && (n < |fs| && fs[n].data.Caravan? ==> fs[n].data.version > next && fs[n].data.visit == visit)
  {
    hide Only, LastVersion, Data, Rising, AllOf;
    var shots, rest := Only(fs[..n], Caravans), Only(fs[n..], Caravans);
    OnlyAdds(fs[..n], fs[n..], Caravans);
    assert fs == fs[..n] + fs[n..];
    assert Only(fs, Caravans) == shots + rest;
    PartRises(shots, rest, visit);
    LastVersionIs(fs[..n]);
    ShownAtMost(fs[..n], visit);
    if n < |fs| && fs[n].data.Caravan? {
      FirstIsShown(fs[n..]);
    }
  }

  lemma PartRises(a: seq<Scheduled>, b: seq<Scheduled>, visit: Visit)
    requires Rising(a + b) && AllOf(a + b, visit)
    ensures Rising(a) && AllOf(a, visit)
    ensures a != [] ==> a[|a| - 1].data.version > 0
    ensures b != [] ==> b[0].data.Caravan? && b[0].data.visit == visit && b[0].data.version > 0
    ensures a != [] && b != [] ==> b[0].data.version > a[|a| - 1].data.version
  {
    assert forall i :: 0 <= i < |a| ==> (a + b)[i] == a[i];
    assert b != [] ==> (a + b)[|a|] == b[0];
  }

  lemma FirstIsShown(fs: seq<Scheduled>)
    requires fs != [] && fs[0].data.Caravan?
    ensures Only(fs, Caravans) != [] && Only(fs, Caravans)[0] == fs[0]
  {
    assert fs == [fs[0]] + fs[1..];
    OnlyAdds([fs[0]], fs[1..], Caravans);
  }

  lemma ShownAtMost(fs: seq<Scheduled>, visit: Visit)
    requires Rising(Only(fs, Caravans)) && AllOf(Only(fs, Caravans), visit)
    ensures forall f :: f in Data(fs) && f.Caravan? ==> f.visit == visit && f.version <= LastVersion(Data(fs))
  {
    LastVersionIs(fs);
    OnlyMembers(fs, Caravans);
    var shots := Only(fs, Caravans);
    hide Only, LastVersion;
    forall f | f in Data(fs) && f.Caravan? ensures f.visit == visit && f.version <= LastVersion(Data(fs)) {
      var i :| 0 <= i < |fs| && fs[i].data == f;
      assert fs[i] in shots;
    }
  }

  // ---------------------------------------------------------------- the driver

  function RouteTile(i: nat): Tile {
    if i < 34 then (102, 127 - i) else (103 + (i - 34), 94)
  }

  /** North along one column to the market row, then east along it. */
  function CaravanRoute(): (route: seq<Tile>)
    ensures |route| == 41 && route[0] == (102, 127) && route[40] == (109, 94)
    ensures FourNeighbour(route)
  {
    seq(41, i requires 0 <= i < 41 => RouteTile(i))
  }

  function HomeFrames(rs: seq<Resident>): seq<Frame> {
    if rs == [] then []
    else
      var r := rs[|rs| - 1];
      HomeFrames(rs[..|rs| - 1]) + [Move(r.slug, r.start, r.start), Idle(r.slug)]
  }

  /** What the driver always publishes last: the caravan has left, and everyone is home. */
  function CleanupFrames(rs: seq<Resident>, visit: Option<Visit>, version: int): seq<Frame> {
    [LeavingFrame(visit, version)] + HomeFrames(rs)
  }

  function LeavingFrame(visit: Option<Visit>, version: int): Frame {
    Caravan(if visit.Some? then visit.value else CleanUp, version + 1, Departed, CaravanRoute()[0], None)
  }

  /** How publishing a frame goes; `RaisedAfter` means that the frame went out all the same. */
  datatype Reply = Delivered | LostBefore | RaisedAfter

  /** The reply to the k-th frame sent, from 1. */
  type Broker = nat -> Reply

  datatype Ending = Finished | Halted | Raised | Invalidated

  ghost predicate AllValid(plans: seq<Plan>) { forall k :: 0 <= k < |plans| ==> Valid(plans[k]) }

  ghost function FramesOf(p: Plan): seq<Frame> {
    if Valid(p) then Data(Timeline(p)) else []
  }

  /** The frames of whole rounds, one after another. */
  ghost function RoundFrames(plans: seq<Plan>): seq<Frame> {
    if plans == [] then []
    else
      var last := plans[|plans| - 1];
      RoundFrames(plans[..|plans| - 1]) + FramesOf(last)
  }

  lemma {:induction false} HomeFrameAt(rs: seq<Resident>, i: nat)
    requires i < |rs|
    ensures |HomeFrames(rs)| == 2 * |rs|
    ensures HomeFrames(rs)[2 * i] == Move(rs[i].slug, rs[i].start, rs[i].start)
            && HomeFrames(rs)[2 * i + 1] == Idle(rs[i].slug)
  {
    if i < |rs| - 1 {
      HomeFrameAt(rs[..|rs| - 1], i);
    } else if i > 0 {
      HomeFrameAt(rs[..|rs| - 1], i - 1);
    }
  }

  lemma {:induction false} CleanupLength(rs: seq<Resident>, visit: Option<Visit>, version: int)
    ensures |CleanupFrames(rs, visit, version)| == 2 * |rs| + 1
  {
    if rs != [] {
      HomeFrameAt(rs, 0);
    }
  }

  /** When the first `m` frames of the clean-up are delivered, the resident is sent home if its
      move is one of them, and else stands where it stood. */
  lemma {:induction false} CleanupSendsHome(
    shown: seq<Frame>, rs: seq<Resident>, visit: Option<Visit>, version: int, m: nat, i: nat)
    requires UniqueSlugs(rs) && i < |rs| && m <= |CleanupFrames(rs, visit, version)|
    ensures var before := Standing(shown, rs[i].slug, rs[i].start);
            Standing(shown + CleanupFrames(rs, visit, version)[..m], rs[i].slug, rs[i].start)
            == if 2 * i + 1 < m then rs[i].start else before
  {
    hide CleanupFrames;
    CleanupFrameAt(rs, visit, version, 0);
    var frames := CleanupFrames(rs, visit, version);
    if m == 0 {
      assert shown + frames[..m] == shown;
    } else {
      CleanupSendsHome(shown, rs, visit, version, m - 1, i);
      CleanupFrameAt(rs, visit, version, m - 1);
      var all := shown + frames[..m];
      assert all[..|all| - 1] == shown + frames[..m - 1] && all[|all| - 1] == frames[m - 1];
    }
  }

  /** First the departure, then for each resident its move and its coming to rest. */
  lemma CleanupFrameAt(rs: seq<Resident>, visit: Option<Visit>, version: int, x: nat)
    requires x <= 2 * |rs|
    ensures |CleanupFrames(rs, visit, version)| == 2 * |rs| + 1
    ensures var f := CleanupFrames(rs, visit, version)[x];
            if x == 0 then f == LeavingFrame(visit, version)
            else if x % 2 == 1 then f == Move(rs[(x - 1) / 2].slug, rs[(x - 1) / 2].start, rs[(x - 1) / 2].start)
            else f == Idle(rs[(x - 1) / 2].slug)
  {
    CleanupLength(rs, visit, version);
    if x > 0 {
      HomeFrameAt(rs, (x - 1) / 2);
    }
  }

  /** No frame shown for the visit carries a version above `version`. */
  ghost predicate NoneAbove(shown: seq<Frame>, visit: Option<Visit>, version: int) {
    forall f :: f in shown && f.Caravan? && visit == Some(f.visit) ==> f.version <= version
  }

  ghost predicate FromRounds(shown: seq<Frame>, rounds: nat) {
    forall f :: f in shown && f.Caravan? ==> f.visit.Round? && f.visit.number <= rounds
  }

  // ---------------------------------------------------------------- which frames are sent

  ghost predicate Playable(rs: seq<Resident>, d: Durations) {
    |rs| == 4 && OnSlots(rs) && UniqueSlugs(rs) && Walkable(rs, d)
  }

  /** What a demo is given: the residents and durations, the number of cycles (0 is without end),
      the look at which `stop` is first found set, and the broker. */
  datatype Setting = Setting(rs: seq<Resident>, d: Durations, cycles: int, stopAt: nat, broker: Broker)

  function Length(s: Setting): (n: nat)
    ensures n > 0
  {
    RoundLength(s.rs, s.d)
  }

  /** The look at `stop` just before the k-th frame: one look for each frame, and three more for
      each round played before. */
  function LookAt(k: nat, length: nat): nat
    requires k > 0 && length > 0
  {
    k + 3 * ((k - 1) / length)
  }

  /** The k-th frame comes before the last cycle is over and before `stop`. */
  ghost predicate Reached(s: Setting, k: nat) {
    k > 0 && Playable(s.rs, s.d) && (s.cycles == 0 || (k - 1) / Length(s) < s.cycles) && LookAt(k, Length(s)) < s.stopAt
  }

  /** The k-th frame is sent: it is reached, and none before it raised. */
  ghost predicate Attempted(s: Setting, k: nat) {
    Reached(s, k) && Smooth(s.broker, 0, k - 1)
  }

  /** The k-th frame goes out and raises, and it is a snapshot. */
  ghost predicate Losing(s: Setting, k: nat) {
    k > 0 && s.broker(k) == RaisedAfter && SnapshotAt(s.rs, s.d, (k - 1) % Length(s))
  }

  /** Such a frame is sent. */
  ghost predicate Loses(s: Setting) { exists k: nat :: Attempted(s, k) && Losing(s, k) }

  lemma Steeper(a: int, b: int, n: int)
    requires a < b && n > 0
    ensures a * n + n <= b * n
  {
    assert (b - a - 1) * n >= 0;
  }

  lemma DivideOnce(q: nat, r: nat, n: nat)
    requires r < n
    ensures (q * n + r) / n == q && (q * n + r) % n == r
  {
    var m := q * n + r;
    var q', r' := m / n, m % n;
    assert m == q' * n + r';
    if q' < q {
      Steeper(q', q, n);
    } else if q' > q {
      Steeper(q, q', n);
    }
  }

  lemma QuotientsRise(a: nat, b: nat, n: nat)
    requires a <= b && n > 0
    ensures a / n <= b / n
  {
    if b / n < a / n {
      Steeper(b / n, a / n, n);
    }
  }

  /** The frame `j` of a round, after `rounds` whole rounds. */
  lemma FrameNumber(rounds: nat, j: nat, length: nat)
    requires j < length
    ensures var k := rounds * length + j + 1;
            && (k - 1) / length == rounds && (k - 1) % length == j && LookAt(k, length) == rounds * (length + 3) + j + 1
  {
    DivideOnce(rounds, j, length);
  }

  /** Later frames are looked at later, and belong to later rounds. */
  lemma LooksRise(j: nat, k: nat, length: nat)
    requires 0 < j <= k && length > 0
    ensures LookAt(j, length) <= LookAt(k, length) && (j - 1) / length <= (k - 1) / length
  {
    QuotientsRise(j - 1, k - 1, length);
  }

  /** The frames sent so far are just the first `sends`. */
  ghost predicate AllSent(s: Setting, sends: nat) { forall k: nat :: 1 <= k <= sends ==> Attempted(s, k) }

  /** Every frame sent after the first `from`, up to `to`, was delivered. */
  ghost predicate Smooth(broker: Broker, from: nat, to: nat) {
    forall k: nat :: from < k <= to ==> broker(k) == Delivered
  }

  /** Frames sent and looks taken in so many whole rounds. */
  function SendsAfter(s: Setting, rounds: nat): nat { rounds * Length(s) }
  function LooksAfter(s: Setting, rounds: nat): nat { rounds * (Length(s) + 3) }

  /** Why no more frames are sent. */
  ghost predicate Stops(s: Setting, ending: Ending, sends: nat) {
    match ending
    case Raised => sends > 0 && s.broker(sends) != Delivered
    case Halted => LookAt(sends + 1, Length(s)) >= s.stopAt
    case Finished => s.cycles != 0 && s.cycles <= sends / Length(s)
    case Invalidated => !Playable(s.rs, s.d)
  }

  lemma SentExactly(s: Setting, ending: Ending, sends: nat)
    requires AllSent(s, sends) && Stops(s, ending, sends)
    ensures forall k: nat :: k > 0 ==> (Attempted(s, k) <==> k <= sends)
  {
    forall k: nat | k > sends ensures !Attempted(s, k) {
      LooksRise(sends + 1, k, Length(s));
    }
  }

  /** The loss, told by the last frame sent. */
  lemma LosesAtTheEnd(s: Setting, ending: Ending, sends: nat)
    requires AllSent(s, sends) && Stops(s, ending, sends) && (!ending.Raised? ==> Smooth(s.broker, 0, sends))
    ensures Loses(s) <==> ending.Raised? && Losing(s, sends)
  {
    SentExactly(s, ending, sends);
    LosingIsNotDelivered(s);
    hide Reached, Losing, Length, LookAt, Attempted;
    forall k: nat | Attempted(s, k) && Losing(s, k) ensures ending.Raised? && k == sends {
      if ending.Raised? {
        SentBefore(s, sends);
      }
    }
  }

  lemma LosingIsNotDelivered(s: Setting)
    ensures forall k: nat :: Losing(s, k) ==> k > 0 && s.broker(k) != Delivered
  {
    hide SnapshotAt, Length;
  }

  lemma SentBefore(s: Setting, k: nat)
    requires Attempted(s, k)
    ensures k > 0 && Smooth(s.broker, 0, k - 1)
  {
  }

  /** A run of frames of the round after `rounds` whole ones. */
  lemma MoreSent(s: Setting, rounds: nat, n: nat)
    requires AllSent(s, SendsAfter(s, rounds)) && Smooth(s.broker, 0, SendsAfter(s, rounds)) && n <= Length(s)
    requires Playable(s.rs, s.d) && (s.cycles == 0 || rounds < s.cycles)
    requires n > 0 ==>
               LooksAfter(s, rounds) + n < s.stopAt
                   && Smooth(s.broker, SendsAfter(s, rounds), SendsAfter(s, rounds) + n - 1)
    ensures AllSent(s, SendsAfter(s, rounds) + n)
  {
    hide Length, Playable;
    var sent := SendsAfter(s, rounds);
    forall k: nat | sent < k <= sent + n ensures Attempted(s, k) {
      FrameNumber(rounds, k - sent - 1, Length(s));
    }
  }

  // ---------------------------------------------------------------- the driver

  lemma NothingNoted(timeline: seq<Scheduled>)
    ensures Data(timeline)[..0] == [] && LastVersion(Data(timeline)[..0]) == 0
  {
  }

  lemma OneMoreNoted(timeline: seq<Scheduled>, n: nat)
    requires n < |timeline|
    ensures var f := timeline[n].data;
            && Data(timeline)[..n + 1] == Data(timeline)[..n] + [f]
            && LastVersion(Data(timeline)[..n + 1])
               == if f.Caravan? then f.version else LastVersion(Data(timeline)[..n])
  {
    hide Data;
    var ds := Data(timeline);
    assert ds[..n + 1] == ds[..n] + [timeline[n].data];
    LastVersionOneMore(ds[..n], timeline[n].data);
  }

  lemma LastVersionOneMore(fs: seq<Frame>, f: Frame)
    ensures LastVersion(fs + [f]) == if f.Caravan? then f.version else LastVersion(fs)
  {
    assert (fs + [f])[..|fs|] == fs;
  }

  class Driver {
    const rs: seq<Resident>
    const d: Durations
    const stopAt: nat
    const broker: Broker
    var published: seq<Frame>
    var visit: Option<Visit>
    var version: int
    var polls: nat
    var sends: nat

    /** `stop` is found set from the `stopAt`-th look on. */
    constructor (rs: seq<Resident>, d: Durations, stopAt: nat, broker: Broker)
      ensures this.rs == rs && this.d == d && this.stopAt == stopAt && this.broker == broker
      ensures published == [] && visit == None && version == 0 && polls == 0 && sends == 0
    {
      this.rs, this.d, this.stopAt, this.broker := rs, d, stopAt, broker;
      published, visit, version, polls, sends := [], None, 0, 0, 0;
    }

    method Stopped() returns (set_: bool)
      modifies this`polls
      ensures polls == old(polls) + 1 && set_ == (old(polls) >= stopAt)
    {
      set_ := polls >= stopAt;
      polls := polls + 1;
    }

    method Publish(f: Frame) returns (raised: bool)
      modifies this`published, this`sends
      ensures sends == old(sends) + 1 && raised == (broker(sends) != Delivered)
      ensures published == if broker(sends) != LostBefore then old(published) + [f] else old(published)
    {
      sends := sends + 1;
      raised := broker(sends) != Delivered;
      if broker(sends) != LostBefore {
        published := published + [f];
      }
    }

    /** Plays a round.  `shown` frames of it went out; the version recorded is that of the first
        `noted` of them, which are all of them unless publishing raised after delivering one. */
    method PlayRound(timeline: seq<Scheduled>) returns (ending: Ending, shown: nat, noted: nat)
      requires version == 0
      modifies this`published, this`sends, this`polls, this`version
      ensures noted <= shown <= |timeline| && polls >= old(polls)
      ensures published == old(published) + Data(timeline)[..shown]
      ensures version == LastVersion(Data(timeline)[..noted])
      ensures Smooth(broker, old(sends), old(sends) + noted) && (noted > 0 ==> old(polls) + noted - 1 < stopAt)
      ensures sends == old(sends) + noted + if ending.Raised? then 1 else 0
      ensures shown == noted + if ending.Raised? && broker(sends) == RaisedAfter then 1 else 0
      ensures match ending
              case Finished => noted == |timeline| && polls == old(polls) + |timeline|
              case Halted => noted < |timeline| && old(polls) + noted >= stopAt
              case Raised => noted < |timeline| && old(polls) + noted < stopAt && broker(sends) != Delivered
              case Invalidated => false
    {
      hide LastVersion;
      noted := 0;
      NothingNoted(timeline);
      while noted < |timeline|
        invariant noted <= |timeline| && polls == old(polls) + noted && sends == old(sends) + noted
        invariant published == old(published) + Data(timeline)[..noted]
        invariant version == LastVersion(Data(timeline)[..noted])
        invariant Smooth(broker, old(sends), old(sends) + noted) && (noted > 0 ==> old(polls) + noted - 1 < stopAt)
      {
        var halted := Stopped();
        if halted {
          return Halted, noted, noted;
        }
        OneMoreNoted(timeline, noted);
        var raised := Publish(timeline[noted].data);
        if raised {
          return Raised, if broker(sends) == RaisedAfter then noted + 1 else noted, noted;
        }
        if timeline[noted].data.Caravan? {
          version := timeline[noted].data.version;
        }
        noted := noted + 1;
      }
      return Finished, noted, noted;
    }

    /** The clean-up, frame by frame until one raises.  The frame `x` of it goes out exactly when
        none before it raised and it is not lost itself. */
    method PublishCleanup() returns (raised: bool, ghost delivered: nat)
      modifies this`published, this`sends
      ensures delivered <= |CleanupFrames(rs, visit, version)| == 2 * |rs| + 1
      ensures published == old(published) + CleanupFrames(rs, visit, version)[..delivered]
      ensures forall x :: 0 <= x <= 2 * |rs| ==> (x < delivered <==> GoesOut(broker, old(sends), x))
      ensures raised <==> !Smooth(broker, old(sends), old(sends) + 2 * |rs| + 1)
    {
      ghost var frames, from, before := CleanupFrames(rs, visit, version), sends, published;
      hide CleanupFrames, SoFar;
      CleanupFrameAt(rs, visit, version, 0);
      ReadyAtFirst(frames, broker, from, before);
      raised, delivered := PublishNext(LeavingFrame(visit, version), frames, before, from, 0);
      ghost var n := 1;
      var i := 0;
      while i < |rs| && !raised
        invariant i <= |rs| && n <= |frames|
                  && SoFar(frames, broker, from, before, published, sends, n, raised, delivered)
        invariant !raised ==> n == delivered == 2 * i + 1
      {
        CleanupFrameAt(rs, visit, version, n);
        raised, delivered := PublishNext(Move(rs[i].slug, rs[i].start, rs[i].start), frames, before, from, n);
        n := n + 1;
        if !raised {
          CleanupFrameAt(rs, visit, version, n);
          raised, delivered := PublishNext(Idle(rs[i].slug), frames, before, from, n);
          n := n + 1;
        }
        i := i + 1;
      }
      WhichGoOut(frames, broker, from, before, published, sends, n, raised, delivered);
    }

    /** One frame of the clean-up, after `n` that were delivered. */
    method PublishNext(f: Frame, ghost frames: seq<Frame>, ghost before: seq<Frame>, ghost from: nat, ghost n: nat)
      returns (raised: bool, ghost delivered: nat)
      requires n < |frames| && frames[n] == f && SoFar(frames, broker, from, before, published, sends, n, false, n)
      modifies this`published, this`sends
      ensures SoFar(frames, broker, from, before, published, sends, n + 1, raised, delivered)
      ensures !raised ==> delivered == n + 1
    {
      assert before + frames[..n] + [f] == before + frames[..n + 1];
      raised := Publish(f);
      delivered := if broker(sends) == LostBefore then n else n + 1;
    }

    /** One round: the visit starts over at version 0, is generated, and is played. */
    method PlayCycle(cycle: nat, ghost s: Setting, ghost before: seq<Frame>, ghost plans: seq<Plan>)
      returns (ending: Ending, ghost shown: seq<Frame>, ghost more: seq<Plan>)
      requires Proper(d) && s == Given(s.cycles) && cycle > 0 && (s.cycles == 0 || cycle <= s.cycles)
               && published == before && polls > 0
      requires Underway(s, cycle - 1, true, Finished, before, plans, visit, version, sends, polls - 1)
      modifies this`published, this`sends, this`polls, this`version, this`visit
      ensures published == shown && polls >= old(polls)
      ensures Underway(s, cycle, ending.Finished?, ending, shown, more, visit, version, sends, polls + 2)
    {
      hide Valid, Timeline, LastVersion, Data, FromRounds, NoneAbove, ShownOf, RoundsOf, RoundFrames, FramesOf;
      hide Walkable, OnSlots, UniqueSlugs, Proper, CaravanRoute, FourNeighbour, AllSent, Length, Losing, LeavingFrame;
      hide SendsAfter, LooksAfter, Smooth, Stops;
      visit, version := Some(Round(cycle)), 0;
      var generated := GenerateCycle(rs, d, Round(cycle), CaravanRoute());
      if generated.Invalid? {
        TailShown(before, [], cycle, 0);
        assert before + [] == before;
        CannotPlay(s, sends);
        return Invalidated, before, plans;
      }
      ghost var p := generated.plan;
      var sent, noted;
      ending, sent, noted := PlayRound(generated.timeline);
      FramesOfValid(p);
      RoundEnds(s, p, cycle, ending, noted, old(polls), sends);
      RoundShown(before, p, cycle, sent, noted);
      OneMorePlan(plans, p, rs, d);
      OneMoreRound(before, plans, p, sent);
      shown, more := before + FramesOf(p)[..sent], plans + [p];
    }

    ghost function Given(cycles: int): Setting { Setting(rs, d, cycles, stopAt, broker) }

    /** One round, and then a look at `stop` and the wait for the round to be over. */
    method PlayAndWait(cycle: nat, ghost s: Setting, ghost before: seq<Frame>, ghost plans: seq<Plan>)
      returns (going: bool, ending: Ending, ghost shown: seq<Frame>, ghost more: seq<Plan>)
      requires Proper(d) && s == Given(s.cycles) && cycle > 0 && (s.cycles == 0 || cycle <= s.cycles)
               && published == before && polls > 0
      requires Underway(s, cycle - 1, true, Finished, before, plans, visit, version, sends, polls - 1)
      modifies this`published, this`sends, this`polls, this`version, this`visit
      ensures published == shown && polls >= old(polls) && (going ==> ending.Finished?)
      ensures Underway(s, cycle, going, ending, shown, more, visit, version, sends, polls)
    {
      hide *;
      ending, shown, more := PlayCycle(cycle, s, before, plans);
      going := ending.Finished?;
      if going {
        going, ending := LookAndWait(cycle, s, shown, more);
      } else {
        Stands(s, cycle, ending, shown, more, visit, version, sends, polls + 2, polls);
      }
    }

    /** A look at `stop`, and the wait for the round to be over, or for `stop`. */
    method LookAndWait(cycle: nat, ghost s: Setting, ghost shown: seq<Frame>, ghost plans: seq<Plan>)
      returns (going: bool, ending: Ending)
      requires s == Given(s.cycles)
      requires Underway(s, cycle, true, Finished, shown, plans, visit, version, sends, polls + 2)
      modifies this`polls
      ensures polls >= old(polls) && (going ==> ending.Finished?)
      ensures Underway(s, cycle, going, ending, shown, plans, visit, version, sends, polls)
    {
      assert s.stopAt == stopAt;
      hide *;
      var halted := Stopped();
      if halted {
        ComesToAnEnd(s, cycle, shown, plans, visit, version, sends, polls + 1);
        going, ending := false, Halted;
        Stands(s, cycle, ending, shown, plans, visit, version, sends, polls + 1, polls);
      } else {
        going, ending := true, Finished;
        var _ := Stopped();
      }
    }

    /** Rounds until `stop`, the last cycle, or a frame that raises. */
    method PlayRounds(cycles: nat)
      returns (ending: Ending, ghost shown: seq<Frame>, ghost plans: seq<Plan>)
      requires Proper(d) && published == [] && visit == None && version == 0 && polls == 0 && sends == 0
      modifies this`published, this`sends, this`polls, this`version, this`visit
      ensures published == shown
              && exists cycle ::
                   Underway(Given(cycles), cycle, false, ending, shown, plans, visit, version, sends, polls)
    {
      ghost var s := Given(cycles);
      assert s.cycles == cycles && s == Given(s.cycles);
      hide *;
      var cycle, going := 0, true;
      ending, shown, plans := Finished, [], [];
      Beginning(s, visit, version);
      while going
        invariant cycle >= 0 && published == shown && (cycles != 0 ==> cycle <= cycles) && (going ==> ending.Finished?)
        invariant Underway(s, cycle, going, ending, shown, plans, visit, version, sends, polls)
        decreases going, stopAt - polls
      {
        var halted := Stopped();
        if halted || !(cycles == 0 || cycle < cycles) {
          ComesToAnEnd(s, cycle, shown, plans, visit, version, sends, polls - 1);
          ending, going := if halted then Halted else Finished, false;
          Stands(s, cycle, ending, shown, plans, visit, version, sends, polls - 1, polls);
        } else {
          cycle := cycle + 1;
          going, ending, shown, plans := PlayAndWait(cycle, s, shown, plans);
        }
      }
    }

    /** The whole demo: rounds until `stop` or the last cycle, and then the clean-up, whatever
        ended them.  `shown` is what went out before the clean-up: whole rounds, and the
        beginning of one more; `tried` frames of them were sent, which ones can be told beforehand.
        The clean-up's snapshot is above all of its visit, exactly unless the broker raises after
        delivering a snapshot. */
    method RunDemo(cycles: int)
      returns (refused: bool, ending: Ending, ghost shown: seq<Frame>, ghost plans: seq<Plan>, ghost tried: nat,
               ghost delivered: nat)
      requires Proper(d) && published == [] && visit == None && version == 0 && polls == 0 && sends == 0
      modifies this
      ensures refused <==> cycles < 0
      ensures refused ==> published == []
      ensures !refused ==>
                && delivered <= |CleanupFrames(rs, visit, version)| == 2 * |rs| + 1
                && published == shown + CleanupFrames(rs, visit, version)[..delivered]
                && RoundsOf(plans, rs, d) && ShownOf(shown, plans)
                && (ending.Finished? ==> |plans| == cycles && shown == RoundFrames(plans))
      ensures !refused ==> forall k: nat :: k > 0 ==> (k <= tried <==> Attempted(Given(cycles), k))
      ensures !refused ==> (NoneAbove(shown, visit, version) <==> !Loses(Given(cycles)))
      ensures !refused ==> forall x :: 0 <= x <= 2 * |rs| ==> (x < delivered <==> GoesOut(broker, tried, x))
      ensures !refused && plans != [] && !ending.Invalidated? ==> visit == Some(Round(|plans|))
      ensures !refused && delivered > 0 ==>
                && |shown| < |published|
                && var f := published[|shown|];
                   && f.Caravan? && f.phase == Departed && f.position == (102, 127) && f.motion == None
                   && f.visit == (if visit.Some? then visit.value else CleanUp)
                   && (!Loses(Given(cycles)) ==>
                         forall g :: g in shown && g.Caravan? && g.visit == f.visit ==> g.version < f.version)
      ensures !refused ==> forall i :: 0 <= i < |rs| && 2 * i + 1 < delivered ==>
                published[|shown| + 2 * i + 1] == Move(rs[i].slug, rs[i].start, rs[i].start)
      ensures !refused ==> forall i :: 0 <= i < |rs| && 2 * i + 2 < delivered ==>
                published[|shown| + 2 * i + 2] == Idle(rs[i].slug)
      ensures !refused && UniqueSlugs(rs) && |rs| > 0 && GoesOut(broker, tried, 2 * |rs| - 1) ==>
                forall i :: 0 <= i < |rs| ==> Standing(published, rs[i].slug, rs[i].start) == rs[i].start
    {
      hide CleanupFrames, RoundsOf, ShownOf, RoundFrames, Attempted, NoneAbove, Loses, GoesOut, Underway;
      refused, ending, shown, plans, tried, delivered := cycles < 0, Finished, [], [], 0, 0;
      if refused {
        return;
      }
      ending, shown, plans := PlayRounds(cycles);
      ghost var cycle :| Underway(Given(cycles), cycle, false, ending, shown, plans, visit, version, sends, polls);
      tried := sends;
      Over(Given(cycles), cycle, ending, shown, plans, visit, version, sends, polls);
      var raised;
      raised, delivered := PublishCleanup();
      CleanupPublished(shown, rs, visit, version, delivered);
      if UniqueSlugs(rs) && |rs| > 0 && 2 * |rs| - 1 < delivered {
        EveryoneSentHome(shown, rs, visit, version, delivered);
      }
    }
  }

  /** The clean-up as it appears among the frames published. */
  lemma CleanupPublished(shown: seq<Frame>, rs: seq<Resident>, visit: Option<Visit>, version: int, m: nat)
    requires m <= |CleanupFrames(rs, visit, version)|
    ensures var published := shown + CleanupFrames(rs, visit, version)[..m];
            && (m > 0 ==>
                  published[|shown|] ==
                  Caravan(if visit.Some? then visit.value else CleanUp, version + 1, Departed, (102, 127), None))
            && (forall i :: 0 <= i < |rs| && 2 * i + 1 < m ==>
                  published[|shown| + 2 * i + 1] == Move(rs[i].slug, rs[i].start, rs[i].start))
            && (forall i :: 0 <= i < |rs| && 2 * i + 2 < m ==> published[|shown| + 2 * i + 2] == Idle(rs[i].slug))
    ensures NoneAbove(shown, visit, version) && (forall f :: f in shown && f.Caravan? ==> f.visit.Round?) ==>
              forall g :: g in shown && g.Caravan? && g.visit == (if visit.Some? then visit.value else CleanUp) ==>
                g.version < version + 1
  {
    CleanupFrameAt(rs, visit, version, 0);
    hide CleanupFrames;
    forall i | 0 <= i < |rs|
      ensures CleanupFrames(rs, visit, version)[2 * i + 1] == Move(rs[i].slug, rs[i].start, rs[i].start)
      ensures CleanupFrames(rs, visit, version)[2 * i + 2] == Idle(rs[i].slug)
    {
      CleanupFrameAt(rs, visit, version, 2 * i + 1);
      CleanupFrameAt(rs, visit, version, 2 * i + 2);
    }
  }

  lemma EveryoneSentHome(shown: seq<Frame>, rs: seq<Resident>, visit: Option<Visit>, version: int, m: nat)
    requires UniqueSlugs(rs) && 2 * |rs| - 1 < m <= |CleanupFrames(rs, visit, version)|
    ensures forall i :: 0 <= i < |rs| ==>
              Standing(shown + CleanupFrames(rs, visit, version)[..m], rs[i].slug, rs[i].start) == rs[i].start
  {
    forall i | 0 <= i < |rs|
      ensures Standing(shown + CleanupFrames(rs, visit, version)[..m], rs[i].slug, rs[i].start) == rs[i].start
    {
      CleanupSendsHome(shown, rs, visit, version, m, i);
    }
  }

  function AtSlot(slug: string, slot: Tile): Resident { Resident(slug, slot, slot, [slot]) }

  /** Four residents already on their slots. */
  function FourAtSlots(): seq<Resident> {
    [AtSlot("a", VISITOR_SLOTS[0]), AtSlot("b", VISITOR_SLOTS[1]), AtSlot("c", VISITOR_SLOTS[2]),
     AtSlot("d", VISITOR_SLOTS[3])]
  }

  lemma FourAre(i: nat)
    requires i < 4
    ensures |FourAtSlots()| == 4 == |VISITOR_SLOTS|
    ensures FourAtSlots()[i].slot == VISITOR_SLOTS[i] && |FourAtSlots()[i].path| == 1
    ensures FourAtSlots()[i].slug == ["a", "b", "c", "d"][i]
  {
  }

  lemma FourOnSlots()
    ensures OnSlots(FourAtSlots()) && UniqueSlugs(FourAtSlots())
  {
    var rs := FourAtSlots();
    forall i: nat | i < 4 ensures |rs| == 4 && rs[i].slot == VISITOR_SLOTS[i] && rs[i].slug == ["a", "b", "c", "d"][i] {
      FourAre(i);
    }
    hide FourAtSlots;
    forall t | t in VISITOR_SLOTS ensures exists r :: r in rs && r.slot == t {
      var i :| 0 <= i < 4 && VISITOR_SLOTS[i] == t;
      assert rs[i] in rs;
    }
    forall r | r in rs ensures r.slot in VISITOR_SLOTS {
      var i :| 0 <= i < 4 && rs[i] == r;
    }
  }

  lemma FourCanPlay(d: Durations)
    ensures Playable(FourAtSlots(), d)
  {
    var rs := FourAtSlots();
    FourOnSlots();
    forall i: nat | i < 4 ensures |rs| == 4 && |rs[i].path| == 1 {
      FourAre(i);
    }
    hide FourAtSlots, MaxPoints, Unwalkable, FullPath, OnSlots, UniqueSlugs;
    forall r | r in rs
      ensures !Unwalkable(r.path, MaxPoints(d.inbound)) && !Unwalkable(FullPath(r, true), MaxPoints(d.outbound)) {
      var i :| 0 <= i < 4 && rs[i] == r;
      StandsStill(r, MaxPoints(d.inbound));
      StandsStill(r, MaxPoints(d.outbound));
    }
  }

  lemma StandsStill(r: Resident, maxPoints: int)
    requires |r.path| == 1
    ensures !Unwalkable(r.path, maxPoints) && !Unwalkable(FullPath(r, true), maxPoints)
  {
    hide Corners;
  }

  /** A demo that loses its version: one round of twenty seconds, and a broker that raises after
      delivering the very first frame. */
  lemma VersionLost() returns (s: Setting)
    ensures Proper(s.d) && s.cycles == 1 && Playable(s.rs, s.d) && Loses(s)
  {
    hide Playable, FourAtSlots, RoundLength;
    var d := FromRoundSeconds(20.0).value;
    assert FromRoundSeconds(20.0) == Some(d);
    s := Setting(FourAtSlots(), d, 1, 2, (k: nat) => if k == 1 then RaisedAfter else Delivered);
    FourCanPlay(d);
    hide FromRoundSeconds;
    FirstLook(Length(s));
    assert Attempted(s, 1) && Losing(s, 1);
  }

  lemma FirstLook(length: nat)
    requires length > 0
    ensures LookAt(1, length) == 1 && 0 / length == 0 && 0 % length == 0
  {
    FrameNumber(0, 0, length);
  }

  /** Once stopped, looks no longer matter. */
  lemma Stands(
    s: Setting, cycle: nat, ending: Ending, shown: seq<Frame>, plans: seq<Plan>, visit: Option<Visit>, version: int,
               sends: nat, polls: nat, later: nat)
    requires Underway(s, cycle, false, ending, shown, plans, visit, version, sends, polls)
    ensures Underway(s, cycle, false, ending, shown, plans, visit, version, sends, later)
  {
  }

  lemma CannotPlay(s: Setting, sends: nat)
    requires !(|s.rs| == 4 && OnSlots(s.rs) && UniqueSlugs(s.rs) && Walkable(s.rs, s.d))
    ensures Stops(s, Invalidated, sends)
  {
  }

  /** The frame `x` of a clean-up that starts after `from` sends. */
  ghost predicate GoesOut(broker: Broker, from: nat, x: nat) {
    Smooth(broker, from, from + x) && broker(from + x + 1) != LostBefore
  }

  /** `n` frames of the clean-up were sent, the last one perhaps raising, and `delivered` went out. */
  ghost predicate SoFar(
    frames: seq<Frame>, broker: Broker, from: nat, before: seq<Frame>, published: seq<Frame>, sends: nat, n: nat,
    raised: bool, delivered: nat)
  {
    && n <= |frames| && sends == from + n && (raised <==> n > 0 && broker(from + n) != Delivered)
    && (n > 0 ==> Smooth(broker, from, from + n - 1))
    && delivered == (if n > 0 && broker(from + n) == LostBefore then n - 1 else n)
    && published == before + frames[..delivered]
  }

  lemma ReadyAtFirst(frames: seq<Frame>, broker: Broker, from: nat, before: seq<Frame>)
    ensures SoFar(frames, broker, from, before, before, from, 0, false, 0)
  {
    assert before + frames[..0] == before;
  }

  lemma WhichGoOut(
    frames: seq<Frame>, broker: Broker, from: nat, before: seq<Frame>, published: seq<Frame>, sends: nat, n: nat,
    raised: bool, delivered: nat)
    requires SoFar(frames, broker, from, before, published, sends, n, raised, delivered) && n > 0
             && (!raised ==> n == |frames|)
    ensures delivered <= |frames| && published == before + frames[..delivered]
    ensures forall x :: 0 <= x < |frames| ==> (x < delivered <==> GoesOut(broker, from, x))
    ensures raised <==> !Smooth(broker, from, from + |frames|)
  {
  }

  /** The version recorded is the highest shown of the visit, unless the last thing that
      happened was that publishing a snapshot raised after delivering it. */
  ghost predicate AboveUnlessLost(
    shown: seq<Frame>, visit: Option<Visit>, version: int, ending: Ending, s: Setting, sends: nat) {
    NoneAbove(shown, visit, version) <==> !(ending.Raised? && Losing(s, sends))
  }

  /** Where the demo stands: after `cycle` whole rounds if it is `going`, else stopped. */
  ghost predicate Underway(
    s: Setting, cycle: nat, going: bool, ending: Ending, shown: seq<Frame>, plans: seq<Plan>,
    visit: Option<Visit>, version: int, sends: nat, polls: nat)
  {
    && RoundsOf(plans, s.rs, s.d) && ShownOf(shown, plans) && AboveUnlessLost(shown, visit, version, ending, s, sends)
    && AllSent(s, sends) && (!ending.Raised? ==> Smooth(s.broker, 0, sends)) && FromRounds(shown, cycle)
    && (ending.Invalidated? || plans == [] || visit == Some(Round(|plans|)))
    && (going ==>
          && ending.Finished? && |plans| == cycle && shown == RoundFrames(plans)
          && sends == SendsAfter(s, cycle) && polls == LooksAfter(s, cycle))
    && (!going ==> Stops(s, ending, sends))
    && (!going && ending.Finished? ==> |plans| == s.cycles && shown == RoundFrames(plans))
  }

  lemma Beginning(s: Setting, visit: Option<Visit>, version: int)
    ensures Underway(s, 0, true, Finished, [], [], visit, version, 0, 0)
  {
    hide Length, Valid;
  }

  /** `stop` is found set at the look before a round or the one after it, or the cycles are over. */
  lemma ComesToAnEnd(
    s: Setting, cycle: nat, shown: seq<Frame>, plans: seq<Plan>, visit: Option<Visit>, version: int, sends: nat,
    polls: nat)
    requires Underway(s, cycle, true, Finished, shown, plans, visit, version, sends, polls)
    ensures polls >= s.stopAt || polls - 2 >= s.stopAt ==>
              Underway(s, cycle, false, Halted, shown, plans, visit, version, sends, polls)
    ensures s.cycles != 0 && s.cycles == cycle ==>
              Underway(s, cycle, false, Finished, shown, plans, visit, version, sends, polls)
  {
    hide RoundsOf, ShownOf, NoneAbove, Losing, AllSent, Smooth, FromRounds, RoundFrames;
    RoundsOver(s, cycle, polls);
  }

  lemma Over(
    s: Setting, cycle: nat, ending: Ending, shown: seq<Frame>, plans: seq<Plan>, visit: Option<Visit>, version: int,
    sends: nat, polls: nat)
    requires Underway(s, cycle, false, ending, shown, plans, visit, version, sends, polls)
    ensures RoundsOf(plans, s.rs, s.d) && ShownOf(shown, plans)
    ensures ending.Finished? ==> |plans| == s.cycles && shown == RoundFrames(plans)
    ensures forall k: nat :: k > 0 ==> (k <= sends <==> Attempted(s, k))
    ensures NoneAbove(shown, visit, version) <==> !Loses(s)
    ensures forall f :: f in shown && f.Caravan? ==> f.visit.Round?
    ensures ending.Invalidated? || plans == [] || visit == Some(Round(|plans|))
  {
    hide NoneAbove, Loses, Losing, Attempted, RoundsOf, ShownOf, RoundFrames, Stops, AllSent, Smooth;
    SentExactly(s, ending, sends);
    LosesAtTheEnd(s, ending, sends);
  }

  /** What the driver finds at the look before a round, and at the one after it. */
  lemma RoundsOver(s: Setting, rounds: nat, polls: nat)
    requires polls <= LooksAfter(s, rounds)
    ensures polls >= s.stopAt ==> Stops(s, Halted, SendsAfter(s, rounds))
    ensures s.cycles != 0 && s.cycles <= rounds ==> Stops(s, Finished, SendsAfter(s, rounds))
  {
    hide Length;
    FrameNumber(rounds, 0, Length(s));
  }

  lemma NextRound(s: Setting, rounds: nat)
    ensures SendsAfter(s, rounds + 1) == SendsAfter(s, rounds) + Length(s)
    ensures LooksAfter(s, rounds + 1) == LooksAfter(s, rounds) + Length(s) + 3
  {
    hide Length;
  }

  /** Playing a round goes on with the numbering of frames and looks. */
  lemma RoundEnds(s: Setting, p: Plan, cycle: nat, ending: Ending, noted: nat, polls: nat, sends: nat)
    requires cycle > 0 && Valid(p) && p.rs == s.rs && p.d == s.d && Playable(s.rs, s.d)
             && (s.cycles == 0 || cycle <= s.cycles)
    requires AllSent(s, SendsAfter(s, cycle - 1)) && Smooth(s.broker, 0, SendsAfter(s, cycle - 1))
             && noted <= |Timeline(p)|
    requires polls == LooksAfter(s, cycle - 1) + 1
    requires sends == SendsAfter(s, cycle - 1) + noted + if ending.Raised? then 1 else 0
    requires Smooth(s.broker, SendsAfter(s, cycle - 1), SendsAfter(s, cycle - 1) + noted)
             && (noted > 0 ==> polls + noted - 1 < s.stopAt)
    requires match ending
             case Finished => noted == |Timeline(p)|
             case Halted => noted < |Timeline(p)| && polls + noted >= s.stopAt
             case Raised => noted < |Timeline(p)| && polls + noted < s.stopAt && s.broker(sends) != Delivered
             case Invalidated => false
    ensures AllSent(s, sends) && (!ending.Raised? ==> Smooth(s.broker, 0, sends))
    ensures ending.Finished? ==> sends == SendsAfter(s, cycle) && polls + noted + 2 == LooksAfter(s, cycle)
    ensures !ending.Finished? ==> Stops(s, ending, sends)
    ensures ending.Raised? ==>
              (Losing(s, sends) <==> s.broker(sends) == RaisedAfter && Timeline(p)[noted].data.Caravan?)
  {
    RoundShape(p);
    assert |Timeline(p)| == Length(s);
    NextRound(s, cycle - 1);
    hide Valid, Timeline, Playable, SnapshotAt, Length, AllSent, LooksAfter, SendsAfter, Reached, Smooth, LookAt;
    SmoothOn(s.broker, SendsAfter(s, cycle - 1), SendsAfter(s, cycle - 1) + noted);
    if noted < Length(s) {
      StopsInside(s, cycle - 1, noted);
    }
    MoreSent(s, cycle - 1, if ending.Raised? then noted + 1 else noted);
  }

  lemma SmoothOn(broker: Broker, from: nat, to: nat)
    requires Smooth(broker, 0, from) && Smooth(broker, from, to)
    ensures Smooth(broker, 0, to)
  {
  }

  lemma StopsInside(s: Setting, rounds: nat, noted: nat)
    requires noted < Length(s)
    ensures (SendsAfter(s, rounds) + noted) % Length(s) == noted
    ensures LookAt(SendsAfter(s, rounds) + noted + 1, Length(s)) == LooksAfter(s, rounds) + 1 + noted
  {
    hide Length;
    FrameNumber(rounds, noted, Length(s));
  }

  ghost predicate RoundsOf(plans: seq<Plan>, rs: seq<Resident>, d: Durations) {
    forall k :: 0 <= k < |plans| ==>
      Valid(plans[k]) && plans[k].rs == rs && plans[k].d == d && plans[k].visit == Round(k + 1)
  }

  /** Whole rounds, and the beginning of the last one. */
  ghost predicate ShownOf(shown: seq<Frame>, plans: seq<Plan>) {
    && AllValid(plans)
    && if plans == [] then shown == []
       else
         var last := plans[|plans| - 1];
         exists n :: 0 <= n <= |FramesOf(last)| && shown == RoundFrames(plans[..|plans| - 1]) + FramesOf(last)[..n]
  }

  lemma FramesOfValid(p: Plan)
    requires Valid(p)
    ensures FramesOf(p) == Data(Timeline(p)) && |FramesOf(p)| == |Timeline(p)|
  {
  }

  lemma OneMorePlan(plans: seq<Plan>, p: Plan, rs: seq<Resident>, d: Durations)
    requires RoundsOf(plans, rs, d) && Valid(p) && p.rs == rs && p.d == d && p.visit == Round(|plans| + 1)
    ensures RoundsOf(plans + [p], rs, d) && AllValid(plans)
  {
  }

  lemma TailShown(before: seq<Frame>, tail: seq<Frame>, cycle: nat, next: int)
    requires cycle > 0 && FromRounds(before, cycle - 1)
    requires forall f :: f in tail && f.Caravan? ==> f.visit == Round(cycle) && f.version <= next
    ensures FromRounds(before + tail, cycle) && NoneAbove(before + tail, Some(Round(cycle)), next)
  {
  }

  lemma FrameShown(shown: seq<Frame>, f: Frame, cycle: nat, next: int)
    requires FromRounds(shown, cycle) && NoneAbove(shown, Some(Round(cycle)), next)
    requires f.Caravan? ==> f.visit == Round(cycle) && f.version > next
    ensures FromRounds(shown + [f], cycle)
    ensures NoneAbove(shown + [f], Some(Round(cycle)), next) <==> !f.Caravan?
  {
    assert f in shown + [f];
  }

  lemma RoundShown(before: seq<Frame>, p: Plan, cycle: nat, sent: nat, noted: nat)
    requires cycle > 0 && FromRounds(before, cycle - 1) && Valid(p) && p.visit == Round(cycle)
    requires noted <= sent <= noted + 1 && sent <= |FramesOf(p)|
    ensures var frames := FramesOf(p);
            var shown := before + frames[..sent];
            && FromRounds(shown, cycle)
            && (NoneAbove(shown, Some(Round(cycle)), LastVersion(frames[..noted])) <==>
                !(sent > noted && frames[noted].Caravan?))
            && (sent > noted ==> shown != [] && shown[|shown| - 1] == frames[noted])
  {
    hide FramesOf, LastVersion, FromRounds, NoneAbove;
    VersionsRise(p, noted);
    var frames := FramesOf(p);
    var next := LastVersion(frames[..noted]);
    TailShown(before, frames[..noted], cycle, next);
    if sent > noted {
      FrameShown(before + frames[..noted], frames[noted], cycle, next);
      assert before + frames[..sent] == before + frames[..noted] + [frames[noted]];
    }
  }

  lemma OneMoreRound(shown: seq<Frame>, plans: seq<Plan>, p: Plan, sent: nat)
    requires AllValid(plans) && shown == RoundFrames(plans) && Valid(p) && sent <= |FramesOf(p)|
    ensures ShownOf(shown + FramesOf(p)[..sent], plans + [p])
    ensures sent == |FramesOf(p)| ==> shown + FramesOf(p)[..sent] == RoundFrames(plans + [p])
  {
    hide FramesOf, Valid;
    var more := plans + [p];
    assert more[..|plans|] == plans && more[|plans|] == p;
    assert FramesOf(p)[..|FramesOf(p)|] == FramesOf(p);
    assert shown + FramesOf(p)[..sent] == RoundFrames(more[..|more| - 1]) + FramesOf(more[|more| - 1])[..sent];
  }
}
