/** What a generated round shows, frame by frame, in plain times and tiles. */
module CaravanScript {
  import opened Bags
  import opened CaravanPath
  import opened CaravanTimeline
  import opened CaravanRound
  import opened CaravanShape

  // ---------------------------------------------------------------- the caravan

  /** The five announcements of a round of `n` residents with `i` moves in and `o` moves out. */
  ghost predicate Announced(
    fs: seq<Scheduled>, n: nat, i: nat, o: nat, d: Durations, visit: Visit, route: seq<Tile>)
    requires |route| >= 2
  {
    var outside, market := route[0], route[|route| - 1];
    var trading := d.waiting + d.inbound;
    var leaving := trading + d.trading;
    var gone := leaving + d.outbound;
    && |fs| == 5 + i + o + 2 * n
    && fs[0] == Scheduled(0.0, Caravan(visit, 1, Waiting, outside, None))
    && fs[1] == Scheduled(d.waiting, Caravan(visit, 2, Inbound, outside, Some(Motion(route, d.waiting, trading))))
    && fs[2 + i] == Scheduled(trading, Caravan(visit, 3, Trading, market, None))
    && fs[3 + i + n]
       == Scheduled(leaving, Caravan(visit, 4, Outbound, market, Some(Motion(Reversed(route), leaving, gone))))
    && fs[4 + i + n + o] == Scheduled(gone, Caravan(visit, 5, Departed, outside, None))
  }

  /** Between them: the moves in, everyone idle, the moves out, everyone idle again. */
  ghost predicate Accompanied(fs: seq<Scheduled>, rs: seq<Resident>, i: nat, o: nat, d: Durations) {
    var n := |rs|;
    var trading := d.waiting + d.inbound;
    var gone := trading + d.trading + d.outbound;
    && |fs| == 5 + i + o + 2 * n
    && (forall k :: 2 <= k < 2 + i || 4 + i + n <= k < 4 + i + n + o ==> fs[k].data.Move?)
    && (forall k :: 3 + i <= k < 3 + i + n ==> fs[k] == Scheduled(trading + 0.01, Idle(rs[k - 3 - i].slug)))
    && (forall k :: 5 + i + n + o <= k < |fs| ==>
          fs[k] == Scheduled(gone + 0.01, Idle(rs[k - 5 - i - n - o].slug)))
  }

  lemma {:induction false} IdlesExactly(rs: seq<Resident>, at: real)
    ensures |Idles(rs, at)| == |rs|
    ensures forall k :: 0 <= k < |rs| ==> Idles(rs, at)[k] == Scheduled(at, Idle(rs[k].slug))
  {
    if rs != [] {
      IdlesExactly(rs[..|rs| - 1], at);
    }
  }

  ghost predicate OnlyMoves(fs: seq<Scheduled>) { forall i :: 0 <= i < |fs| ==> fs[i].data.Move? }

  lemma SortedMoves(fs: seq<Scheduled>)
    requires forall f :: f in fs ==> f.data.Move?
    ensures OnlyMoves(StableSort(fs)) && |StableSort(fs)| == |fs|
  {
    SortSorts(fs);
    SortLength(fs);
    var sorted := StableSort(fs);
    hide StableSort;
    forall i | 0 <= i < |sorted| ensures sorted[i].data.Move? {
      assert sorted[i] in multiset(sorted);
      assert sorted[i] in fs;
    }
  }

  lemma LegsSorted(p: Plan)
    requires Valid(p)
    ensures OnlyMoves(StableSort(InLegs(p))) && |StableSort(InLegs(p))| == Steps(p.rs, p.d.inbound)
    ensures OnlyMoves(StableSort(OutLegs(p))) && |StableSort(OutLegs(p))| == Steps(p.rs, p.d.outbound)
  {
    ProperMeans(p.d);
    LegsAre(p.rs, p.inbound, InboundAt(p.d), p.d.inbound, false);
    LegsAre(p.rs, p.outbound, OutboundAt(p.d), p.d.outbound, true);
    LegsLength(p.rs, p.inbound, InboundAt(p.d), p.d.inbound, false);
    LegsLength(p.rs, p.outbound, OutboundAt(p.d), p.d.outbound, true);
    hide Legs, WalksOf, Proper, StableSort, Steps;
    SortedMoves(InLegs(p));
    SortedMoves(OutLegs(p));
  }

  /** A snapshot, and then everyone idle. */
  ghost predicate Opening(fs: seq<Scheduled>, f: Scheduled, rs: seq<Resident>, at: real) {
    && |fs| == 1 + |rs| && fs[0] == f
    && forall k :: 1 <= k < |fs| ==> fs[k] == Scheduled(at, Idle(rs[k - 1].slug))
  }

  lemma OpeningExactly(f: Scheduled, rs: seq<Resident>, at: real)
    ensures Opening([f] + Idles(rs, at), f, rs, at)
  {
    IdlesExactly(rs, at);
  }

  /** Where the parts of a round come to lie, one after another. */
  lemma Placed(
    f: Scheduled, g: Scheduled, b: seq<Scheduled>, c: seq<Scheduled>, h: Scheduled, e: seq<Scheduled>,
    z: seq<Scheduled>)
    requires |c| >= 1 && |z| >= 1
    ensures var all := [f, g] + b + c + [h] + e + z;
            && |all| == 3 + |b| + |c| + |e| + |z|
            && all[0] == f && all[1] == g && all[2 + |b|] == c[0] && all[2 + |b| + |c|] == h
            && all[3 + |b| + |c| + |e|] == z[0]
  {
  }

  lemma PlacedBetween(
    f: Scheduled, g: Scheduled, b: seq<Scheduled>, c: seq<Scheduled>, h: Scheduled, e: seq<Scheduled>,
    z: seq<Scheduled>, rs: seq<Resident>, d: Durations, x: Scheduled, y: Scheduled)
    requires OnlyMoves(b) && OnlyMoves(e)
    requires Opening(c, x, rs, d.waiting + d.inbound + 0.01)
    requires Opening(z, y, rs, d.waiting + d.inbound + d.trading + d.outbound + 0.01)
    ensures Accompanied([f, g] + b + c + [h] + e + z, rs, |b|, |e|, d)
  {
  }

  lemma AnnouncedInParts(
    all: seq<Scheduled>, n: nat, i: nat, o: nat, d: Durations, visit: Visit, route: seq<Tile>)
    requires |route| >= 2 && |all| == 5 + i + o + 2 * n
    requires all[0] == Snapshot(d, visit, route, 1) && all[1] == Snapshot(d, visit, route, 2)
    requires all[2 + i] == Snapshot(d, visit, route, 3) && all[3 + i + n] == Snapshot(d, visit, route, 4)
    requires all[4 + i + n + o] == Snapshot(d, visit, route, 5)
    ensures Announced(all, n, i, o, d, visit, route)
  {
  }

  lemma Openings(p: Plan)
    requires |p.route| >= 2
    ensures Opening(Arrival(p), Nth(p, 3), p.rs, p.d.waiting + p.d.inbound + 0.01)
    ensures Opening(Departure(p), Nth(p, 5), p.rs, p.d.waiting + p.d.inbound + p.d.trading + p.d.outbound + 0.01)
  {
    hide Opening, Nth, Idles;
    OpeningExactly(Nth(p, 3), p.rs, TradingAt(p.d) + 0.01);
    OpeningExactly(Nth(p, 5), p.rs, DepartedAt(p.d) + 0.01);
  }

  /** Each announcement of a sorted round: when it is made, and what it says. */
  lemma RoundAnnounced(p: Plan)
    requires Valid(p)
    ensures Announced(Timeline(p), |p.rs|, Steps(p.rs, p.d.inbound), Steps(p.rs, p.d.outbound), p.d, p.visit, p.route)
  {
    TimelineInParts(p);
    LegsSorted(p);
    Openings(p);
    var all, b, e := Timeline(p), StableSort(InLegs(p)), StableSort(OutLegs(p));
    assert |p.route| >= 2;
    hide Valid, Timeline, StableSort, InLegs, OutLegs, Idles, Steps, Snapshot, Announced, OnlyMoves, Arrival, Departure;
    Placed(Nth(p, 1), Nth(p, 2), b, Arrival(p), Nth(p, 4), e, Departure(p));
    AnnouncedInParts(all, |p.rs|, |b|, |e|, p.d, p.visit, p.route);
  }

  /** Every other frame of a sorted round: a move while residents walk, an idle notice on arrival. */
  lemma RoundAccompanied(p: Plan)
    requires Valid(p)
    ensures Accompanied(Timeline(p), p.rs, Steps(p.rs, p.d.inbound), Steps(p.rs, p.d.outbound), p.d)
  {
    TimelineInParts(p);
    LegsSorted(p);
    Openings(p);
    hide Valid, Timeline, StableSort, InLegs, OutLegs, Steps, Nth, Arrival, Departure, OnlyMoves, Opening, Accompanied;
    PlacedBetween(Nth(p, 1), Nth(p, 2), StableSort(InLegs(p)), Arrival(p), Nth(p, 4), StableSort(OutLegs(p)),
                  Departure(p), p.rs, p.d, Nth(p, 3), Nth(p, 5));
  }

  /** A round that shows what it should, frame by frame. */
  ghost predicate Scripted(fs: seq<Scheduled>, rs: seq<Resident>, d: Durations, visit: Visit, route: seq<Tile>)
    requires |route| >= 2
  {
    exists i: nat, o: nat :: Announced(fs, |rs|, i, o, d, visit, route) && Accompanied(fs, rs, i, o, d)
  }

  /** Every round goes by the script. */
  lemma RoundScripted(p: Plan)
    requires Valid(p)
    ensures Scripted(Timeline(p), p.rs, p.d, p.visit, p.route)
  {
    hide Announced, Accompanied, Timeline, Steps;
    RoundAnnounced(p);
    RoundAccompanied(p);
  }

  // ---------------------------------------------------------------- the residents

  /** Evenly timed moves along `walk` from its second tile on, in a phase of `seconds`. */
  ghost predicate Walked(
    fs: seq<Scheduled>, slug: string, walk: seq<Tile>, target: Tile, start: real, seconds: real)
  {
    if |walk| < 2 then fs == []
    else |fs| == |walk| - 1 && Paced(fs, slug, walk, target, start, (seconds - 0.85) / (|walk| - 1) as real)
  }

  ghost predicate Paced(fs: seq<Scheduled>, slug: string, walk: seq<Tile>, target: Tile, start: real, pace: real)
    requires |fs| < |walk|
  {
    forall k :: 0 <= k < |fs| ==>
      fs[k] == Scheduled(start + pace * (k + 1) as real, Move(slug, walk[k + 1], target))
  }

  lemma {:induction false} HopsExactly(
    slug: string, walk: seq<Tile>, target: Tile, start: real, pace: real, n: nat)
    requires n < |walk|
    ensures var hops := Hops(slug, walk, target, start, pace, n);
            |hops| == n && Paced(hops, slug, walk, target, start, pace)
  {
    if n > 0 {
      HopsExactly(slug, walk, target, start, pace, n - 1);
    }
  }

  lemma LegExactly(r: Resident, walk: seq<Tile>, start: real, seconds: real, outbound: bool)
    requires seconds >= 6.0
    ensures Walked(Leg(r, walk, start, seconds, outbound), r.slug, walk, if outbound then r.start else r.slot,
                   start, seconds)
  {
    hide Paced, Hops;
    if |walk| >= 2 {
      HopsExactly(r.slug, walk, if outbound then r.start else r.slot, start, Pace(seconds, |walk|), |walk| - 1);
    }
  }

  /** One resident's moves: in to the slot along the walk in, then home along the walk out. */
  lemma MovesExactly(p: Plan, i: nat)
    requires Valid(p) && i < |p.rs|
    ensures var r := p.rs[i];
            var moves := Only(Timeline(p), MovesOf(r.slug));
            exists n: nat ::
              && n <= |moves|
              && Walked(moves[..n], r.slug, p.inbound[i], r.slot, p.d.waiting, p.d.inbound)
              && Walked(moves[n..], r.slug, p.outbound[i], r.start, p.d.waiting + p.d.inbound + p.d.trading,
                        p.d.outbound)
  {
    var r := p.rs[i];
    var a, b := Leg(r, p.inbound[i], InboundAt(p.d), p.d.inbound, false),
        Leg(r, p.outbound[i], OutboundAt(p.d), p.d.outbound, true);
    MovesOfOne(p, i);
    ProperMeans(p.d);
    LegExactly(r, p.inbound[i], InboundAt(p.d), p.d.inbound, false);
    LegExactly(r, p.outbound[i], OutboundAt(p.d), p.d.outbound, true);
    hide Leg, Valid, Timeline, Spaced, Walked, Only;
    var moves := a + b;
    assert moves[..|a|] == a && moves[|a|..] == b;
  }
}
