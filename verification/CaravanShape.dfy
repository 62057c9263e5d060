/** How long a round is, frame by frame, and at which frames its snapshots are. */
module CaravanShape {
  import opened Bags
  import opened CaravanPath
  import opened CaravanTimeline
  import opened CaravanRound

  /** The moves made in one phase. */
  function Steps(rs: seq<Resident>, seconds: real): nat {
    if rs == [] then 0
    else
      var points := Fewer(|rs[|rs| - 1].path|, MaxPoints(seconds));
      Steps(rs[..|rs| - 1], seconds) + if points < 2 then 0 else points - 1
  }

  /** The frames of a round: five snapshots, the moves in and out, and two idle frames each. */
  function RoundLength(rs: seq<Resident>, d: Durations): nat {
    5 + Steps(rs, d.inbound) + Steps(rs, d.outbound) + 2 * |rs|
  }

  /** Whether the `j`-th frame of a round is a snapshot of the caravan. */
  predicate SnapshotAt(rs: seq<Resident>, d: Durations, j: nat) {
    var inbound, outbound := Steps(rs, d.inbound), Steps(rs, d.outbound);
    j == 0 || j == 1 || j == 2 + inbound || j == 3 + inbound + |rs| || j == 4 + inbound + |rs| + outbound
  }

  lemma {:induction false} HopsLength(slug: string, walk: seq<Tile>, target: Tile, start: real, pace: real, n: nat)
    requires n < |walk|
    ensures |Hops(slug, walk, target, start, pace, n)| == n
  {
    if n > 0 {
      HopsLength(slug, walk, target, start, pace, n - 1);
    }
  }

  lemma {:induction false} LegsLength(
    rs: seq<Resident>, walks: seq<seq<Tile>>, start: real, seconds: real, outbound: bool)
    requires WalksOf(rs, walks, seconds, outbound)
    ensures |Legs(rs, walks, start, seconds, outbound)| == Steps(rs, seconds)
  {
    if rs != [] {
      hide MaxPoints, IsSample;
      var n := |rs| - 1;
      LegsLength(rs[..n], walks[..n], start, seconds, outbound);
      if |walks[n]| >= 2 {
        var target, pace := if outbound then rs[n].start else rs[n].slot, Pace(seconds, |walks[n]|);
        HopsLength(rs[n].slug, walks[n], target, start, pace, |walks[n]| - 1);
      }
    }
  }

  lemma {:induction false} IdlesLength(rs: seq<Resident>, at: real)
    ensures |Idles(rs, at)| == |rs|
  {
    if rs != [] {
      IdlesLength(rs[..|rs| - 1], at);
    }
  }

  lemma {:induction false} SortLength(fs: seq<Scheduled>)
    ensures |StableSort(fs)| == |fs|
  {
    SortSorts(fs);
    BagLength(StableSort(fs), fs);
  }

  ghost predicate NotAfter(fs: seq<Scheduled>, t: real) { forall f :: f in fs ==> f.offset <= t }
  ghost predicate NotBefore(fs: seq<Scheduled>, t: real) { forall f :: f in fs ==> f.offset >= t }

  lemma SplitAt(early: seq<Scheduled>, late: seq<Scheduled>, t: real)
    requires NotAfter(early, t) && NotBefore(late, t)
    ensures StableSort(early + late) == StableSort(early) + StableSort(late)
  {
    forall x | x in late ensures AllBefore(early, x.offset) {
    }
    hide StableSort, AllBefore;
    SortSplits(early, late);
  }

  /** The idle frames at the opening of a phase, after its snapshot. */
  lemma SettledSorts(f: Scheduled, rs: seq<Resident>)
    ensures StableSort([f] + Idles(rs, f.offset + 0.01)) == [f] + Idles(rs, f.offset + 0.01)
  {
    var idles := Idles(rs, f.offset + 0.01);
    IdlesAre(rs, f.offset + 0.01);
    assert forall i :: 0 <= i < |idles| ==> idles[i] in idles;
    assert InOrder([f] + idles);
    SortedStays([f] + idles);
  }

  function Arrival(p: Plan): seq<Scheduled>
    requires |p.route| >= 2
  {
    [Nth(p, 3)] + Idles(p.rs, TradingAt(p.d) + 0.01)
  }

  function Departure(p: Plan): seq<Scheduled>
    requires |p.route| >= 2
  {
    [Nth(p, 5)] + Idles(p.rs, DepartedAt(p.d) + 0.01)
  }

  lemma LegsInTime(p: Plan)
    requires Valid(p)
    ensures NotBefore(InLegs(p), InboundAt(p.d)) && NotAfter(InLegs(p), TradingAt(p.d))
    ensures NotBefore(OutLegs(p), OutboundAt(p.d)) && NotAfter(OutLegs(p), DepartedAt(p.d))
  {
    ProperMeans(p.d);
    LegsAre(p.rs, p.inbound, InboundAt(p.d), p.d.inbound, false);
    LegsAre(p.rs, p.outbound, OutboundAt(p.d), p.d.outbound, true);
    hide Legs, WalksOf, Proper;
  }

  lemma PartsInTime(p: Plan)
    requires Valid(p)
    ensures NotAfter([Nth(p, 1), Nth(p, 2)], InboundAt(p.d))
    ensures NotBefore(Arrival(p), TradingAt(p.d)) && NotAfter(Arrival(p), OutboundAt(p.d))
    ensures NotBefore([Nth(p, 4)], OutboundAt(p.d)) && NotAfter([Nth(p, 4)], OutboundAt(p.d))
    ensures NotBefore(Departure(p), DepartedAt(p.d))
    ensures InboundAt(p.d) <= TradingAt(p.d) <= OutboundAt(p.d) <= DepartedAt(p.d)
  {
    ProperMeans(p.d);
    IdlesAre(p.rs, TradingAt(p.d) + 0.01);
    IdlesAre(p.rs, DepartedAt(p.d) + 0.01);
    hide Idles, WalksOf, Proper;
  }

  lemma NotAfterAdds(a: seq<Scheduled>, b: seq<Scheduled>, s: real, t: real)
    requires NotAfter(a, s) && NotAfter(b, t) && s <= t
    ensures NotAfter(a + b, t)
  {
  }

  lemma FramesInParts(p: Plan)
    requires |p.route| >= 2 && |p.rs| == |p.inbound| == |p.outbound|
    ensures Frames(p) == [Nth(p, 1), Nth(p, 2)] + InLegs(p) + Arrival(p) + [Nth(p, 4)] + OutLegs(p) + Departure(p)
  {
    hide Legs, Idles, Snapshot;
  }

  /** The sorted round: its phases one after another, each opened by its snapshot. */
  lemma TimelineInParts(p: Plan)
    requires Valid(p)
    ensures Timeline(p) ==
            [Nth(p, 1), Nth(p, 2)] + StableSort(InLegs(p)) + Arrival(p) + [Nth(p, 4)] + StableSort(OutLegs(p))
                + Departure(p)
  {
    PartsInTime(p);
    LegsInTime(p);
    FramesInParts(p);
    OpeningSorts(p);
    hide Valid, NotAfter, NotBefore, Frames, InLegs, OutLegs, Arrival, Departure, Nth, StableSort;
    hide InboundAt, TradingAt, OutboundAt, DepartedAt;
    var a, b, c, d, e, f := [Nth(p, 1), Nth(p, 2)], InLegs(p), Arrival(p), [Nth(p, 4)], OutLegs(p), Departure(p);
    NotAfterAdds(a, b, InboundAt(p.d), TradingAt(p.d));
    NotAfterAdds(a + b, c, TradingAt(p.d), OutboundAt(p.d));
    NotAfterAdds(a + b + c, d, OutboundAt(p.d), OutboundAt(p.d));
    NotAfterAdds(a + b + c + d, e, OutboundAt(p.d), DepartedAt(p.d));
    SplitAt(a, b, InboundAt(p.d));
    SplitAt(a + b, c, TradingAt(p.d));
    SplitAt(a + b + c, d, OutboundAt(p.d));
    SplitAt(a + b + c + d, e, OutboundAt(p.d));
    SplitAt(a + b + c + d + e, f, DepartedAt(p.d));
  }

  lemma OpeningSorts(p: Plan)
    requires Valid(p)
    ensures StableSort([Nth(p, 1), Nth(p, 2)]) == [Nth(p, 1), Nth(p, 2)] && StableSort([Nth(p, 4)]) == [Nth(p, 4)]
    ensures StableSort(Arrival(p)) == Arrival(p) && StableSort(Departure(p)) == Departure(p)
  {
    hide Idles, WalksOf, Proper, StableSort, Nth, UniqueSlugs;
    OpeningTimes(p);
    SettledSorts(Nth(p, 3), p.rs);
    SettledSorts(Nth(p, 5), p.rs);
    FewSort(Nth(p, 1), Nth(p, 2));
    FewSort(Nth(p, 4), Nth(p, 4));
  }

  lemma OpeningTimes(p: Plan)
    requires Valid(p)
    ensures Nth(p, 1).offset <= Nth(p, 2).offset && Nth(p, 3).offset == TradingAt(p.d)
            && Nth(p, 5).offset == DepartedAt(p.d)
  {
    hide WalksOf;
    ProperMeans(p.d);
  }

  lemma FewSort(f: Scheduled, g: Scheduled)
    requires f.offset <= g.offset
    ensures StableSort([f, g]) == [f, g] && StableSort([f]) == [f]
  {
    SortedStays([f, g]);
    SortedStays([f]);
  }

  ghost predicate NoSnapshot(fs: seq<Scheduled>) { forall i :: 0 <= i < |fs| ==> !fs[i].data.Caravan? }

  lemma SortedLegs(p: Plan)
    requires Valid(p)
    ensures NoSnapshot(StableSort(InLegs(p))) && |StableSort(InLegs(p))| == Steps(p.rs, p.d.inbound)
    ensures NoSnapshot(StableSort(OutLegs(p))) && |StableSort(OutLegs(p))| == Steps(p.rs, p.d.outbound)
  {
    ProperMeans(p.d);
    LegsAre(p.rs, p.inbound, InboundAt(p.d), p.d.inbound, false);
    LegsAre(p.rs, p.outbound, OutboundAt(p.d), p.d.outbound, true);
    LegsLength(p.rs, p.inbound, InboundAt(p.d), p.d.inbound, false);
    LegsLength(p.rs, p.outbound, OutboundAt(p.d), p.d.outbound, true);
    hide Legs, WalksOf, Proper, StableSort, Steps;
    MovesSorted(InLegs(p));
    MovesSorted(OutLegs(p));
  }

  lemma MovesSorted(fs: seq<Scheduled>)
    requires forall f :: f in fs ==> f.data.Move?
    ensures NoSnapshot(StableSort(fs)) && |StableSort(fs)| == |fs|
  {
    SortSorts(fs);
    SortLength(fs);
    var sorted := StableSort(fs);
    hide StableSort;
    forall i | 0 <= i < |sorted| ensures !sorted[i].data.Caravan? {
      assert sorted[i] in multiset(sorted);
      assert sorted[i] in fs;
    }
  }

  lemma OpeningOnly(f: Scheduled, rs: seq<Resident>, at: real)
    requires f.data.Caravan?
    ensures var fs := [f] + Idles(rs, at);
            && |fs| == 1 + |rs|
            && forall i :: 0 <= i < |fs| ==> (fs[i].data.Caravan? <==> i == 0)
  {
    IdlesAre(rs, at);
    IdlesLength(rs, at);
    var idles := Idles(rs, at);
    assert forall i :: 0 <= i < |idles| ==> idles[i] in idles;
  }

  /** Every round of the demo has the same number of frames, and its snapshots are the same ones. */
  lemma RoundShape(p: Plan)
    requires Valid(p)
    ensures |Timeline(p)| == RoundLength(p.rs, p.d)
    ensures forall j :: 0 <= j < |Timeline(p)| ==> (Timeline(p)[j].data.Caravan? <==> SnapshotAt(p.rs, p.d, j))
  {
    TimelineInParts(p);
    SortedLegs(p);
    SnapshotsInOrder(p);
    OpeningOnly(Nth(p, 3), p.rs, TradingAt(p.d) + 0.01);
    OpeningOnly(Nth(p, 5), p.rs, DepartedAt(p.d) + 0.01);
    hide Valid, Timeline, StableSort, InLegs, OutLegs, Idles, Nth, Only, Steps;
    Positions([Nth(p, 1), Nth(p, 2)], StableSort(InLegs(p)), Arrival(p), [Nth(p, 4)], StableSort(OutLegs(p)),
              Departure(p));
  }

  lemma Positions(
    a: seq<Scheduled>, b: seq<Scheduled>, c: seq<Scheduled>, d: seq<Scheduled>, e: seq<Scheduled>, f: seq<Scheduled>)
    requires |a| == 2 && a[0].data.Caravan? && a[1].data.Caravan? && |d| == 1 && d[0].data.Caravan?
    requires NoSnapshot(b) && NoSnapshot(e) && |c| >= 1 && |f| >= 1
    requires forall i :: 0 <= i < |c| ==> (c[i].data.Caravan? <==> i == 0)
    requires forall i :: 0 <= i < |f| ==> (f[i].data.Caravan? <==> i == 0)
    ensures var all := a + b + c + d + e + f;
            forall j :: 0 <= j < |all| ==>
              (all[j].data.Caravan? <==>
               j == 0 || j == 1 || j == 2 + |b| || j == 2 + |b| + |c| || j == 3 + |b| + |c| + |e|)
  {
  }
}
