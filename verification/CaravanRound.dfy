/** Generating one market round, and what its timeline promises. */
module CaravanRound {
  import opened CaravanPath
  import opened CaravanTimeline

  // ---------------------------------------------------------------- one walk

  /** Any two of the frames are at least one move interval apart, the earlier one first. */
  ghost predicate Spaced(fs: seq<Scheduled>) {
    forall i, j :: 0 <= i < j < |fs| ==> fs[i].offset + MIN_MOVE_INTERVAL <= fs[j].offset
  }

  ghost predicate Between(fs: seq<Scheduled>, low: real, high: real) {
    forall i :: 0 <= i < |fs| ==> low <= fs[i].offset <= high
  }

  lemma PaceFits(seconds: real, points: nat)
    requires seconds >= 6.0 && 2 <= points <= MaxPoints(seconds)
    ensures Pace(seconds, points) >= MIN_MOVE_INTERVAL
    ensures Pace(seconds, points) * (points - 1) as real == seconds - MIN_MOVE_INTERVAL
  {
    var hops, usable := (points - 1) as real, seconds - MIN_MOVE_INTERVAL;
    assert hops * MIN_MOVE_INTERVAL <= usable;
  }

  ghost predicate MovesBy(fs: seq<Scheduled>, slug: string) {
    forall i :: 0 <= i < |fs| ==> fs[i].data.Move? && fs[i].data.slug == slug
  }

  lemma {:induction false} HopsAre(slug: string, walk: seq<Tile>, target: Tile, start: real, pace: real, n: nat)
    requires n < |walk| && pace >= MIN_MOVE_INTERVAL
    ensures var hops := Hops(slug, walk, target, start, pace, n);
            && |hops| == n && MovesBy(hops, slug)
            && Spaced(hops) && Between(hops, start + MIN_MOVE_INTERVAL, start + pace * n as real)
            && (n > 0 ==> hops[n - 1].data.tile == walk[n])
  {
    hide Spaced, Between, MovesBy;
    if n == 0 {
      NoMoves(slug, start + MIN_MOVE_INTERVAL, start + pace * n as real);
    } else {
      HopsAre(slug, walk, target, start, pace, n - 1);
      var front, f := Hops(slug, walk, target, start, pace, n - 1),
                      Scheduled(start + pace * n as real, Move(slug, walk[n], target));
      AddMove(front, f, start + MIN_MOVE_INTERVAL, start + pace * (n - 1) as real);
    }
  }

  lemma NoMoves(slug: string, low: real, high: real)
    ensures Spaced([]) && Between([], low, high) && MovesBy([], slug)
  {
  }

  lemma AddMove(fs: seq<Scheduled>, f: Scheduled, low: real, high: real)
    requires Spaced(fs) && Between(fs, low, high) && f.data.Move? && MovesBy(fs, f.data.slug)
    requires f.offset >= high + MIN_MOVE_INTERVAL && f.offset >= low
    ensures Spaced(fs + [f]) && Between(fs + [f], low, f.offset) && MovesBy(fs + [f], f.data.slug)
  {
  }

  /** The frames of one walk: all moves of that resident, a move interval apart, starting one
      interval into the phase and ending one interval before its end, on the walk's last tile. */
  lemma LegIs(r: Resident, walk: seq<Tile>, start: real, seconds: real, outbound: bool)
    requires seconds >= 6.0 && |walk| <= MaxPoints(seconds)
    ensures var leg := Leg(r, walk, start, seconds, outbound);
            && MovesBy(leg, r.slug)
            && Spaced(leg) && Between(leg, start + MIN_MOVE_INTERVAL, start + seconds - MIN_MOVE_INTERVAL)
            && (leg == [] <==> |walk| < 2)
            && (leg != [] ==> leg[|leg| - 1].data.tile == walk[|walk| - 1])
  {
    if |walk| >= 2 {
      PaceFits(seconds, |walk|);
      var pace, n := Pace(seconds, |walk|), |walk| - 1;
      hide Hops, Pace, MaxPoints, Spaced, Between, MovesBy;
      assert start + pace * n as real == start + seconds - MIN_MOVE_INTERVAL;
      HopsAre(r.slug, walk, if outbound then r.start else r.slot, start, pace, n);
    }
  }

  // ---------------------------------------------------------------- views of the frames made

  lemma OnlyNone(fs: seq<Scheduled>, v: View)
    requires forall f :: f in fs ==> !Shows(v, f)
    ensures Only(fs, v) == []
  {
    OnlyMembers(fs, v);
    if Only(fs, v) != [] {
      assert Only(fs, v)[0] in Only(fs, v);
    }
  }

  lemma {:induction false} OnlyAll(fs: seq<Scheduled>, v: View)
    requires forall f :: f in fs ==> Shows(v, f)
    ensures Only(fs, v) == fs
  {
    if fs != [] {
      OnlyAll(fs[..|fs| - 1], v);
    }
  }

  ghost predicate AllMoves(fs: seq<Scheduled>, low: real, high: real) {
    forall f :: f in fs ==> f.data.Move? && low <= f.offset <= high
  }

  lemma {:induction false} LegsAre(rs: seq<Resident>, walks: seq<seq<Tile>>, start: real, seconds: real, outbound: bool)
    requires WalksOf(rs, walks, seconds, outbound) && seconds >= 6.0
    ensures AllMoves(Legs(rs, walks, start, seconds, outbound), start + MIN_MOVE_INTERVAL,
                     start + seconds - MIN_MOVE_INTERVAL)
  {
    if rs != [] {
      var n := |rs| - 1;
      LegsAre(rs[..n], walks[..n], start, seconds, outbound);
      LegIs(rs[n], walks[n], start, seconds, outbound);
      hide WalkOf, Leg;
    }
  }

  /** The legs walked by `slug`. */
  function LegsBy(
    slug: string, rs: seq<Resident>, walks: seq<seq<Tile>>, start: real, seconds: real, outbound: bool): seq<Scheduled>
    requires |rs| == |walks|
  {
    if rs == [] then []
    else
      var n := |rs| - 1;
      LegsBy(slug, rs[..n], walks[..n], start, seconds, outbound)
      + if rs[n].slug == slug then Leg(rs[n], walks[n], start, seconds, outbound) else []
  }

  lemma {:induction false} LegsView(
    slug: string, rs: seq<Resident>, walks: seq<seq<Tile>>, start: real, seconds: real, outbound: bool)
    requires WalksOf(rs, walks, seconds, outbound) && seconds >= 6.0
    ensures Only(Legs(rs, walks, start, seconds, outbound), MovesOf(slug))
            == LegsBy(slug, rs, walks, start, seconds, outbound)
  {
    if rs != [] {
      var n := |rs| - 1;
      LegsView(slug, rs[..n], walks[..n], start, seconds, outbound);
      LegIs(rs[n], walks[n], start, seconds, outbound);
      hide WalkOf, Leg, Only, Spaced, Between;
      var front, leg := Legs(rs[..n], walks[..n], start, seconds, outbound),
          Leg(rs[n], walks[n], start, seconds, outbound);
      OnlyAdds(front, leg, MovesOf(slug));
      if rs[n].slug == slug {
        OnlyAll(leg, MovesOf(slug));
      } else {
        OnlyNone(leg, MovesOf(slug));
      }
    }
  }

  lemma {:induction false} LegsByOne(
    rs: seq<Resident>, walks: seq<seq<Tile>>, start: real, seconds: real, outbound: bool, i: nat)
    requires |rs| == |walks| && i < |rs|
    requires UniqueSlugs(rs)
    ensures LegsBy(rs[i].slug, rs, walks, start, seconds, outbound) == Leg(rs[i], walks[i], start, seconds, outbound)
  {
    var n := |rs| - 1;
    if i < n {
      LegsByOne(rs[..n], walks[..n], start, seconds, outbound, i);
    } else {
      LegsByNone(rs[i].slug, rs[..n], walks[..n], start, seconds, outbound);
    }
  }

  lemma {:induction false} LegsByNone(
    slug: string, rs: seq<Resident>, walks: seq<seq<Tile>>, start: real, seconds: real, outbound: bool)
    requires |rs| == |walks| && forall i :: 0 <= i < |rs| ==> rs[i].slug != slug
    ensures LegsBy(slug, rs, walks, start, seconds, outbound) == []
  {
    if rs != [] {
      LegsByNone(slug, rs[..|rs| - 1], walks[..|rs| - 1], start, seconds, outbound);
    }
  }

  lemma {:induction false} IdlesAre(rs: seq<Resident>, at: real)
    ensures forall f :: f in Idles(rs, at) ==> f.data.Idle? && f.offset == at
  {
    if rs != [] {
      IdlesAre(rs[..|rs| - 1], at);
    }
  }

  // ---------------------------------------------------------------- views of a whole round

  /** A round that the driver can generate. */
  datatype Plan = Plan(rs: seq<Resident>, inbound: seq<seq<Tile>>, outbound: seq<seq<Tile>>, d: Durations,
                       visit: Visit, route: seq<Tile>)

  ghost predicate UniqueSlugs(rs: seq<Resident>) {
    forall i, j :: 0 <= i < j < |rs| ==> rs[i].slug != rs[j].slug
  }

  ghost predicate Valid(p: Plan) {
    && Proper(p.d) && |p.route| >= 2
    && WalksOf(p.rs, p.inbound, p.d.inbound, false) && WalksOf(p.rs, p.outbound, p.d.outbound, true)
    && UniqueSlugs(p.rs)
  }

  function Frames(p: Plan): seq<Scheduled>
    requires |p.route| >= 2 && |p.rs| == |p.inbound| == |p.outbound|
  {
    Coming(p.rs, p.inbound, p.d, p.visit, p.route) + Going(p.rs, p.outbound, p.d, p.visit, p.route)
  }

  function Timeline(p: Plan): seq<Scheduled>
    requires |p.route| >= 2 && |p.rs| == |p.inbound| == |p.outbound|
  {
    StableSort(Frames(p))
  }

  function InLegs(p: Plan): seq<Scheduled>
    requires |p.rs| == |p.inbound|
  {
    Legs(p.rs, p.inbound, InboundAt(p.d), p.d.inbound, false)
  }

  function OutLegs(p: Plan): seq<Scheduled>
    requires |p.rs| == |p.outbound|
  {
    Legs(p.rs, p.outbound, OutboundAt(p.d), p.d.outbound, true)
  }

  function Nth(p: Plan, n: nat): Scheduled
    requires |p.route| >= 2 && 1 <= n <= 5
  {
    Snapshot(p.d, p.visit, p.route, n)
  }

  lemma OnlyFour(a: seq<Scheduled>, b: seq<Scheduled>, c: seq<Scheduled>, d: seq<Scheduled>, v: View)
    ensures Only(a + b + c + d, v) == Only(a, v) + Only(b, v) + Only(c, v) + Only(d, v)
  {
    hide Only;
    OnlyAdds(a, b, v);
    OnlyAdds(a + b, c, v);
    OnlyAdds(a + b + c, d, v);
  }

  /** A view of the round is the view of its parts. */
  lemma FramesView(p: Plan, v: View)
    requires |p.route| >= 2 && |p.rs| == |p.inbound| == |p.outbound|
    ensures Only(Frames(p), v) ==
              (Only([Nth(p, 1), Nth(p, 2)], v) + Only(InLegs(p), v)
               + Only([Nth(p, 3)], v) + Only(Idles(p.rs, TradingAt(p.d) + 0.01), v))
              + (Only([Nth(p, 4)], v) + Only(OutLegs(p), v)
                 + Only([Nth(p, 5)], v) + Only(Idles(p.rs, DepartedAt(p.d) + 0.01), v))
  {
    hide Only, Idles, Legs, Snapshot;
    OnlyFour([Nth(p, 1), Nth(p, 2)], InLegs(p), [Nth(p, 3)], Idles(p.rs, TradingAt(p.d) + 0.01), v);
    OnlyFour([Nth(p, 4)], OutLegs(p), [Nth(p, 5)], Idles(p.rs, DepartedAt(p.d) + 0.01), v);
    OnlyAdds(Coming(p.rs, p.inbound, p.d, p.visit, p.route), Going(p.rs, p.outbound, p.d, p.visit, p.route), v);
  }

  /** The moves one resident makes in the frames of a round, in the order made. */
  lemma FramesMoves(p: Plan, i: nat)
    requires Valid(p) && i < |p.rs|
    ensures Only(Frames(p), MovesOf(p.rs[i].slug)) ==
              Leg(p.rs[i], p.inbound[i], InboundAt(p.d), p.d.inbound, false)
              + Leg(p.rs[i], p.outbound[i], OutboundAt(p.d), p.d.outbound, true)
  {
    var v := MovesOf(p.rs[i].slug);
    ProperMeans(p.d);
    NoMovesElsewhere(p, v.slug);
    hide Only, Legs, Leg, LegsBy, WalksOf, Proper, Idles, Nth, InboundAt, OutboundAt;
    FramesView(p, v);
    LegsView(v.slug, p.rs, p.inbound, InboundAt(p.d), p.d.inbound, false);
    LegsByOne(p.rs, p.inbound, InboundAt(p.d), p.d.inbound, false, i);
    LegsView(v.slug, p.rs, p.outbound, OutboundAt(p.d), p.d.outbound, true);
    LegsByOne(p.rs, p.outbound, OutboundAt(p.d), p.d.outbound, true, i);
    Sides(Leg(p.rs[i], p.inbound[i], InboundAt(p.d), p.d.inbound, false),
          Leg(p.rs[i], p.outbound[i], OutboundAt(p.d), p.d.outbound, true));
    hide Valid, Frames, InLegs, OutLegs;
  }

  lemma Sides(a: seq<Scheduled>, b: seq<Scheduled>)
    ensures ([] + a + [] + []) + ([] + b + [] + []) == a + b
  {
  }

  lemma NoMovesElsewhere(p: Plan, slug: string)
    requires |p.route| >= 2
    ensures Only([Nth(p, 1), Nth(p, 2)], MovesOf(slug)) == [] && Only([Nth(p, 3)], MovesOf(slug)) == []
    ensures Only([Nth(p, 4)], MovesOf(slug)) == [] && Only([Nth(p, 5)], MovesOf(slug)) == []
    ensures forall at :: Only(Idles(p.rs, at), MovesOf(slug)) == []
  {
    OnlyNone([Nth(p, 1), Nth(p, 2)], MovesOf(slug));
    OnlyNone([Nth(p, 3)], MovesOf(slug));
    OnlyNone([Nth(p, 4)], MovesOf(slug));
    OnlyNone([Nth(p, 5)], MovesOf(slug));
    forall at ensures Only(Idles(p.rs, at), MovesOf(slug)) == [] {
      IdlesAre(p.rs, at);
      OnlyNone(Idles(p.rs, at), MovesOf(slug));
    }
  }

  /** One resident's moves in the finished timeline: the walk in, then the walk out, each move
      at least an interval after the one before. */
  lemma MovesOfOne(p: Plan, i: nat)
    requires Valid(p) && i < |p.rs|
    ensures var moves := Only(Timeline(p), MovesOf(p.rs[i].slug));
            && moves == Leg(p.rs[i], p.inbound[i], InboundAt(p.d), p.d.inbound, false)
                        + Leg(p.rs[i], p.outbound[i], OutboundAt(p.d), p.d.outbound, true)
            && Spaced(moves)
  {
    var r := p.rs[i];
    var a, b := Leg(r, p.inbound[i], InboundAt(p.d), p.d.inbound, false),
        Leg(r, p.outbound[i], OutboundAt(p.d), p.d.outbound, true);
    FramesMoves(p, i);
    ProperMeans(p.d);
    LegIs(r, p.inbound[i], InboundAt(p.d), p.d.inbound, false);
    LegIs(r, p.outbound[i], OutboundAt(p.d), p.d.outbound, true);
    SpacedApart(a, b, TradingAt(p.d) - MIN_MOVE_INTERVAL, OutboundAt(p.d) + MIN_MOVE_INTERVAL);
    hide Leg, Only, Valid, Frames;
    SortView(Frames(p), MovesOf(r.slug));
    assert InOrder(a + b);
    hide StableSort, Spaced, InOrder;
    SortedStays(a + b);
  }

  lemma SpacedApart(a: seq<Scheduled>, b: seq<Scheduled>, high: real, low: real)
    requires Spaced(a) && Spaced(b) && high + MIN_MOVE_INTERVAL <= low
    requires forall i :: 0 <= i < |a| ==> a[i].offset <= high
    requires forall i :: 0 <= i < |b| ==> low <= b[i].offset
    ensures Spaced(a + b)
  {
  }

  lemma NoSnapshotsElsewhere(p: Plan)
    requires Valid(p)
    ensures Only(InLegs(p), Caravans) == [] && Only(OutLegs(p), Caravans) == []
    ensures forall at :: Only(Idles(p.rs, at), Caravans) == []
  {
    ProperMeans(p.d);
    LegsAre(p.rs, p.inbound, InboundAt(p.d), p.d.inbound, false);
    LegsAre(p.rs, p.outbound, OutboundAt(p.d), p.d.outbound, true);
    hide Only, Legs, Valid, Idles;
    OnlyNone(InLegs(p), Caravans);
    OnlyNone(OutLegs(p), Caravans);
    forall at ensures Only(Idles(p.rs, at), Caravans) == [] {
      IdlesAre(p.rs, at);
      OnlyNone(Idles(p.rs, at), Caravans);
    }
  }

  lemma FramesSnapshots(p: Plan)
    requires Valid(p)
    ensures Only(Frames(p), Caravans) == [Nth(p, 1), Nth(p, 2)] + [Nth(p, 3)] + [Nth(p, 4)] + [Nth(p, 5)]
  {
    NoSnapshotsElsewhere(p);
    OnlyAll([Nth(p, 1), Nth(p, 2)], Caravans);
    OnlyAll([Nth(p, 3)], Caravans);
    OnlyAll([Nth(p, 4)], Caravans);
    OnlyAll([Nth(p, 5)], Caravans);
    FramesView(p, Caravans);
    Middles([Nth(p, 1), Nth(p, 2)], [Nth(p, 3)], [Nth(p, 4)], [Nth(p, 5)]);
    hide Only, Valid, Frames, Nth, InLegs, OutLegs, Idles, Snapshot;
  }

  lemma Middles(a: seq<Scheduled>, b: seq<Scheduled>, c: seq<Scheduled>, d: seq<Scheduled>)
    ensures (a + [] + b + []) + (c + [] + d + []) == a + b + c + d
  {
  }

  /** The finished timeline shows the caravan's five snapshots, in order of version. */
  lemma SnapshotsInOrder(p: Plan)
    requires Valid(p)
    ensures Only(Timeline(p), Caravans) == [Nth(p, 1), Nth(p, 2)] + [Nth(p, 3)] + [Nth(p, 4)] + [Nth(p, 5)]
    ensures forall n :: 1 <= n <= 5 ==>
              Nth(p, n).data.Caravan? && Nth(p, n).data.version == n && Nth(p, n).data.visit == p.visit
  {
    ProperMeans(p.d);
    var five := [Nth(p, 1), Nth(p, 2)] + [Nth(p, 3)] + [Nth(p, 4)] + [Nth(p, 5)];
    assert InOrder(five);
    FramesSnapshots(p);
    hide Only, Valid, Frames, InOrder, StableSort;
    SortView(Frames(p), Caravans);
    SortedStays(five);
  }

  ghost predicate Timely(d: Durations, f: Scheduled) {
    && 0.0 <= f.offset < RoundTotal(d)
    && (f.data.Move? ==>
          InboundAt(d) < f.offset <= TradingAt(d) - MIN_MOVE_INTERVAL
          || OutboundAt(d) < f.offset <= DepartedAt(d) - MIN_MOVE_INTERVAL)
  }

  ghost predicate AllTimely(d: Durations, fs: seq<Scheduled>) { forall f :: f in fs ==> Timely(d, f) }

  lemma FramesTimely(p: Plan)
    requires Valid(p)
    ensures AllTimely(p.d, Frames(p))
  {
    ProperMeans(p.d);
    MovesTimely(p);
    IdlesTimely(p);
    hide Timely, Valid, Legs, Idles, Nth, Snapshot;
  }

  lemma MovesTimely(p: Plan)
    requires Valid(p)
    ensures AllTimely(p.d, InLegs(p)) && AllTimely(p.d, OutLegs(p))
  {
    ProperMeans(p.d);
    LegsAre(p.rs, p.inbound, InboundAt(p.d), p.d.inbound, false);
    LegsAre(p.rs, p.outbound, OutboundAt(p.d), p.d.outbound, true);
    hide Legs, Valid;
  }

  lemma IdlesTimely(p: Plan)
    requires Valid(p)
    ensures AllTimely(p.d, Idles(p.rs, TradingAt(p.d) + 0.01)) && AllTimely(p.d, Idles(p.rs, DepartedAt(p.d) + 0.01))
  {
    ProperMeans(p.d);
    IdlesAre(p.rs, TradingAt(p.d) + 0.01);
    IdlesAre(p.rs, DepartedAt(p.d) + 0.01);
    hide Idles, Valid;
  }

  /** Everything in a round happens within the round, and every walk is over an interval before
      its phase ends. */
  lemma WithinTheRound(p: Plan)
    requires Valid(p)
    ensures InOrder(Timeline(p)) && multiset(Timeline(p)) == multiset(Frames(p))
    ensures forall f :: f in Timeline(p) ==> Timely(p.d, f)
  {
    SortSorts(Frames(p));
    FramesTimely(p);
    hide StableSort, InOrder, Valid, Frames, Timely;
    forall f | f in Timeline(p) ensures f in Frames(p) {
      assert f in multiset(Timeline(p));
    }
  }

  // ---------------------------------------------------------------- replaying a timeline

  function Data(fs: seq<Scheduled>): (r: seq<Frame>)
    ensures |r| == |fs| && forall i :: 0 <= i < |fs| ==> r[i] == fs[i].data
  {
    if fs == [] then [] else Data(fs[..|fs| - 1]) + [fs[|fs| - 1].data]
  }

  /** Where a resident stands after the frames, having stood at `home` before them. */
  function Standing(fs: seq<Frame>, slug: string, home: Tile): Tile {
    if fs == [] then home
    else
      var last := fs[|fs| - 1];
      if last.Move? && last.slug == slug then last.tile else Standing(fs[..|fs| - 1], slug, home)
  }

  /** Where a resident stands once the frames due by time `t` have been shown. */
  function StandingAt(fs: seq<Scheduled>, t: real, slug: string, home: Tile): Tile {
    Standing(Data(Only(fs, Upto(t))), slug, home)
  }

  lemma {:induction false} StandingByMoves(fs: seq<Scheduled>, slug: string, home: Tile)
    ensures Standing(Data(fs), slug, home) == Standing(Data(Only(fs, MovesOf(slug))), slug, home)
  {
    if fs != [] {
      var front, last := fs[..|fs| - 1], fs[|fs| - 1];
      StandingByMoves(front, slug, home);
      assert Data(fs) == Data(front) + [last.data];
      if Shows(MovesOf(slug), last) {
        assert Only(fs, MovesOf(slug)) == Only(front, MovesOf(slug)) + [last];
      } else {
        assert Only(fs, MovesOf(slug)) == Only(front, MovesOf(slug));
      }
    }
  }

  /** The frames up to a moment are the beginning of a timeline in order. */
  lemma {:induction false} UptoIsABeginning(fs: seq<Scheduled>, t: real)
    requires InOrder(fs)
    ensures Only(fs, Upto(t)) <= fs
    ensures |Only(fs, Upto(t))| < |fs| ==> fs[|Only(fs, Upto(t))|].offset > t
  {
    if fs != [] {
      UptoIsABeginning(fs[..|fs| - 1], t);
    }
  }

  /** A resident's path leads from home to its slot. */
  ghost predicate LeadsToSlot(r: Resident) {
    |r.path| > 0 && r.path[0] == r.start && r.path[|r.path| - 1] == r.slot
  }

  /** During trading every resident stands on its slot, from the moment trading opens to the
      moment the way out begins. */
  lemma OnSlotDuringTrading(p: Plan, i: nat, t: real)
    requires Valid(p) && i < |p.rs| && LeadsToSlot(p.rs[i]) && TradingAt(p.d) <= t <= OutboundAt(p.d)
    ensures StandingAt(Timeline(p), t, p.rs[i].slug, p.rs[i].start) == p.rs[i].slot
  {
    var r := p.rs[i];
    var a, b := Leg(r, p.inbound[i], InboundAt(p.d), p.d.inbound, false),
        Leg(r, p.outbound[i], OutboundAt(p.d), p.d.outbound, true);
    MovesOfOne(p, i);
    ProperMeans(p.d);
    LegIs(r, p.inbound[i], InboundAt(p.d), p.d.inbound, false);
    LegIs(r, p.outbound[i], OutboundAt(p.d), p.d.outbound, true);
    hide Leg, Valid, Timeline, Spaced, WalkOf;
    UptoLeg(a, b, t);
    StandingByMoves(Only(Timeline(p), Upto(t)), r.slug, r.start);
    OnlyTwice(Timeline(p), Upto(t), MovesOf(r.slug));
  }

  lemma UptoLeg(a: seq<Scheduled>, b: seq<Scheduled>, t: real)
    requires (forall i :: 0 <= i < |a| ==> a[i].offset <= t) && (forall i :: 0 <= i < |b| ==> t < b[i].offset)
    ensures Only(a + b, Upto(t)) == a
  {
    OnlyAdds(a, b, Upto(t));
    OnlyAll(a, Upto(t));
    OnlyNone(b, Upto(t));
  }

  /** At the end of the round everyone is home. */
  lemma HomeAtTheEnd(p: Plan, i: nat)
    requires Valid(p) && i < |p.rs| && LeadsToSlot(p.rs[i])
    ensures Standing(Data(Timeline(p)), p.rs[i].slug, p.rs[i].start) == p.rs[i].start
  {
    var r := p.rs[i];
    var a, b := Leg(r, p.inbound[i], InboundAt(p.d), p.d.inbound, false),
        Leg(r, p.outbound[i], OutboundAt(p.d), p.d.outbound, true);
    MovesOfOne(p, i);
    ProperMeans(p.d);
    LegIs(r, p.inbound[i], InboundAt(p.d), p.d.inbound, false);
    LegIs(r, p.outbound[i], OutboundAt(p.d), p.d.outbound, true);
    hide Leg, Valid, Timeline, Spaced, WalkOf;
    StandingByMoves(Timeline(p), r.slug, r.start);
  }
}
