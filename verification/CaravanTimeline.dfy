/** One market round as a timeline of frames, and what replaying it shows.

    Times are seconds from the start of the round, as real numbers. */
module CaravanTimeline {
  import opened Bags
  import opened CaravanPath

  datatype Phase = Waiting | Inbound | Trading | Outbound | Departed

  datatype Visit = Round(number: nat) | CleanUp

  datatype Motion = Motion(path: seq<Tile>, startedAt: real, endsAt: real)

  datatype Frame =
    | Caravan(visit: Visit, version: int, phase: Phase, position: Tile, motion: Option<Motion>)
    | Move(slug: string, tile: Tile, target: Tile)
    | Idle(slug: string)

  datatype Scheduled = Scheduled(offset: real, data: Frame)

  datatype Resident = Resident(slug: string, start: Tile, slot: Tile, path: seq<Tile>)

  const VISITOR_SLOTS: seq<Tile> := [(114, 93), (116, 93), (114, 95), (116, 95)]

  const MIN_MOVE_INTERVAL: real := 0.85

  // ---------------------------------------------------------------- the phases of a round

  datatype Durations = Durations(waiting: real, inbound: real, trading: real, outbound: real, departed: real)

  function FromRoundSeconds(seconds: real): Option<Durations> {
    if 20.0 <= seconds <= 3600.0
    then Some(Durations(seconds * 0.08, seconds * 0.30, seconds * 0.30, seconds * 0.30, seconds * 0.02))
    else None
  }

  function InboundAt(d: Durations): real { d.waiting }
  function TradingAt(d: Durations): real { InboundAt(d) + d.inbound }
  function OutboundAt(d: Durations): real { TradingAt(d) + d.trading }
  function DepartedAt(d: Durations): real { OutboundAt(d) + d.outbound }
  function RoundTotal(d: Durations): real { d.waiting + d.inbound + d.trading + d.outbound + d.departed }

  /** The durations the driver can be given. */
  ghost predicate Proper(d: Durations) {
    exists seconds :: FromRoundSeconds(seconds) == Some(d)
  }

  lemma ProperMeans(d: Durations)
    requires Proper(d)
    ensures d.waiting > 0.0 && d.inbound >= 6.0 && d.trading >= 6.0 && d.outbound >= 6.0 && d.departed >= 0.4
    ensures 20.0 <= RoundTotal(d) <= 3600.0
  {
  }

  /** They are fixed shares of a round of 20 seconds up to an hour, and every such round has them. */
  lemma ProperIff(d: Durations)
    ensures Proper(d) <==>
              var total := d.waiting + d.inbound + d.trading + d.outbound + d.departed;
              && 20.0 <= total <= 3600.0
              && d == Durations(0.08 * total, 0.30 * total, 0.30 * total, 0.30 * total, 0.02 * total)
  {
    var total := d.waiting + d.inbound + d.trading + d.outbound + d.departed;
    if 20.0 <= total <= 3600.0 && d == Durations(0.08 * total, 0.30 * total, 0.30 * total, 0.30 * total, 0.02 * total) {
      assert FromRoundSeconds(total) == Some(d);
    }
  }

  // ---------------------------------------------------------------- the frames of one phase

  function MaxPoints(phaseSeconds: real): int {
    var n := (phaseSeconds / MIN_MOVE_INTERVAL).Floor;
    if n < 2 then 2 else n
  }

  function Pace(phaseSeconds: real, points: nat): real
    requires points >= 2
  {
    var usable := phaseSeconds - MIN_MOVE_INTERVAL;
    (if usable < 0.1 then 0.1 else usable) / (points - 1) as real
  }

  /** The first `n` hops of a walk. */
  function Hops(slug: string, walk: seq<Tile>, target: Tile, start: real, pace: real, n: nat): seq<Scheduled>
    requires n < |walk|
  {
    if n == 0 then []
    else
      Hops(slug, walk, target, start, pace, n - 1)
      + [Scheduled(start + pace * n as real, Move(slug, walk[n], target))]
  }

  function Leg(r: Resident, walk: seq<Tile>, start: real, seconds: real, outbound: bool): seq<Scheduled> {
    if |walk| < 2 then []
    else Hops(r.slug, walk, if outbound then r.start else r.slot, start, Pace(seconds, |walk|), |walk| - 1)
  }

  function Legs(rs: seq<Resident>, walks: seq<seq<Tile>>, start: real, seconds: real, outbound: bool): seq<Scheduled>
    requires |rs| == |walks|
  {
    if rs == [] then []
    else Legs(rs[..|rs| - 1], walks[..|rs| - 1], start, seconds, outbound)
         + Leg(rs[|rs| - 1], walks[|rs| - 1], start, seconds, outbound)
  }

  function Idles(rs: seq<Resident>, at: real): seq<Scheduled> {
    if rs == [] then [] else Idles(rs[..|rs| - 1], at) + [Scheduled(at, Idle(rs[|rs| - 1].slug))]
  }

  function FullPath(r: Resident, outbound: bool): seq<Tile> {
    if outbound then Reversed(r.path) else r.path
  }

  function Fewer(n: nat, maxPoints: int): int { if n <= maxPoints then n else maxPoints }

  /** A walk is a sample of the path it came from, of as many points as its phase has room for. */
  ghost predicate WalkOf(path: seq<Tile>, walk: seq<Tile>, maxPoints: int) {
    |walk| == Fewer(|path|, maxPoints) && exists kept :: IsSample(path, kept, walk)
  }

  ghost predicate WalksOf(rs: seq<Resident>, walks: seq<seq<Tile>>, seconds: real, outbound: bool) {
    && |walks| == |rs|
    && forall i :: 0 <= i < |rs| ==> WalkOf(FullPath(rs[i], outbound), walks[i], MaxPoints(seconds))
  }

  // ---------------------------------------------------------------- the whole round

  function Snapshot(d: Durations, visit: Visit, route: seq<Tile>, n: nat): Scheduled
    requires |route| >= 2 && 1 <= n <= 5
  {
    var outside, market := route[0], route[|route| - 1];
    match n
    case 1 => Scheduled(0.0, Caravan(visit, 1, Waiting, outside, None))
    case 2 =>
      Scheduled(InboundAt(d), Caravan(visit, 2, Inbound, outside, Some(Motion(route, InboundAt(d), TradingAt(d)))))
    case 3 => Scheduled(TradingAt(d), Caravan(visit, 3, Trading, market, None))
    case 4 =>
      Scheduled(OutboundAt(d), Caravan(visit, 4, Outbound, market,
                                       Some(Motion(Reversed(route), OutboundAt(d), DepartedAt(d)))))
    case 5 => Scheduled(DepartedAt(d), Caravan(visit, 5, Departed, outside, None))
  }

  /** The frames in the order in which they are made: up to trading, and from then on. */
  function Coming(
    rs: seq<Resident>, inbound: seq<seq<Tile>>, d: Durations, visit: Visit, route: seq<Tile>): seq<Scheduled>
    requires |route| >= 2 && |rs| == |inbound|
  {
    [Snapshot(d, visit, route, 1), Snapshot(d, visit, route, 2)]
    + Legs(rs, inbound, InboundAt(d), d.inbound, false)
    + [Snapshot(d, visit, route, 3)]
    + Idles(rs, TradingAt(d) + 0.01)
  }

  function Going(
    rs: seq<Resident>, outbound: seq<seq<Tile>>, d: Durations, visit: Visit, route: seq<Tile>): seq<Scheduled>
    requires |route| >= 2 && |rs| == |outbound|
  {
    [Snapshot(d, visit, route, 4)]
    + Legs(rs, outbound, OutboundAt(d), d.outbound, true)
    + [Snapshot(d, visit, route, 5)]
    + Idles(rs, DepartedAt(d) + 0.01)
  }

  // ---------------------------------------------------------------- a stable sort by offset

  function Insert(sorted: seq<Scheduled>, x: Scheduled): seq<Scheduled> {
    if sorted == [] || sorted[|sorted| - 1].offset <= x.offset then sorted + [x]
    else Insert(sorted[..|sorted| - 1], x) + [sorted[|sorted| - 1]]
  }

  function StableSort(fs: seq<Scheduled>): seq<Scheduled> {
    if fs == [] then [] else Insert(StableSort(fs[..|fs| - 1]), fs[|fs| - 1])
  }

  ghost predicate InOrder(fs: seq<Scheduled>) {
    forall i, j :: 0 <= i < j < |fs| ==> fs[i].offset <= fs[j].offset
  }

  /** A way of looking at part of a timeline. */
  datatype View = MovesOf(slug: string) | Caravans | Upto(t: real) | At(t: real)

  predicate Shows(v: View, f: Scheduled) {
    match v
    case MovesOf(slug) => f.data.Move? && f.data.slug == slug
    case Caravans => f.data.Caravan?
    case Upto(t) => f.offset <= t
    case At(t) => f.offset == t
  }

  function Only(fs: seq<Scheduled>, v: View): seq<Scheduled> {
    if fs == [] then []
    else Only(fs[..|fs| - 1], v) + if Shows(v, fs[|fs| - 1]) then [fs[|fs| - 1]] else []
  }

  lemma OnlyOneMore(fs: seq<Scheduled>, f: Scheduled, v: View)
    ensures Only(fs + [f], v) == Only(fs, v) + if Shows(v, f) then [f] else []
  {
    assert (fs + [f])[..|fs|] == fs;
  }

  lemma {:induction false} OnlyAdds(a: seq<Scheduled>, b: seq<Scheduled>, v: View)
    ensures Only(a + b, v) == Only(a, v) + Only(b, v)
  {
    if b == [] {
      assert a + b == a;
    } else {
      OnlyAdds(a, b[..|b| - 1], v);
      OnlyOneMore(a + b[..|b| - 1], b[|b| - 1], v);
      assert a + b == (a + b[..|b| - 1]) + [b[|b| - 1]];
    }
  }

  lemma {:induction false} OnlyMembers(fs: seq<Scheduled>, v: View)
    ensures forall f :: f in Only(fs, v) <==> f in fs && Shows(v, f)
  {
    if fs != [] {
      OnlyMembers(fs[..|fs| - 1], v);
      assert fs == fs[..|fs| - 1] + [fs[|fs| - 1]];
    }
  }

  lemma {:induction false} OnlyTwice(fs: seq<Scheduled>, v: View, w: View)
    ensures Only(Only(fs, v), w) == Only(Only(fs, w), v)
  {
    if fs != [] {
      var front, last := fs[..|fs| - 1], fs[|fs| - 1];
      OnlyTwice(front, v, w);
      OnlyOneMore(Only(front, v), last, w);
      OnlyOneMore(Only(front, w), last, v);
      assert Only(front, v) + [] == Only(front, v) && Only(front, w) + [] == Only(front, w);
    }
  }

  // ---------------------------------------------------------------- what the sort keeps

  ghost predicate AllBefore(fs: seq<Scheduled>, t: real) { forall i :: 0 <= i < |fs| ==> fs[i].offset <= t }

  lemma {:induction false} InsertBefore(s: seq<Scheduled>, x: Scheduled, t: real)
    requires AllBefore(s, t) && x.offset <= t
    ensures AllBefore(Insert(s, x), t)
  {
    if s != [] && s[|s| - 1].offset > x.offset {
      InsertBefore(s[..|s| - 1], x, t);
    }
  }

  lemma {:induction false} InsertSorts(s: seq<Scheduled>, x: Scheduled)
    requires InOrder(s)
    ensures InOrder(Insert(s, x))
  {
    if s != [] && s[|s| - 1].offset > x.offset {
      InsertSorts(s[..|s| - 1], x);
      InsertBefore(s[..|s| - 1], x, s[|s| - 1].offset);
    }
  }

  lemma {:induction false} InsertBag(s: seq<Scheduled>, x: Scheduled)
    ensures multiset(Insert(s, x)) == multiset(s) + multiset{x}
  {
    if s != [] && s[|s| - 1].offset > x.offset {
      InsertBag(s[..|s| - 1], x);
      assert s == s[..|s| - 1] + [s[|s| - 1]];
    }
  }

  /** The sorted timeline is in order and holds exactly the frames that were made. */
  lemma {:induction false} SortSorts(fs: seq<Scheduled>)
    ensures InOrder(StableSort(fs)) && multiset(StableSort(fs)) == multiset(fs)
  {
    if fs != [] {
      hide InOrder, Insert;
      var front, last := fs[..|fs| - 1], fs[|fs| - 1];
      SortSorts(front);
      InsertSorts(StableSort(front), last);
      InsertBag(StableSort(front), last);
      assert fs == front + [last];
    }
  }

  lemma InsertAfter(s: seq<Scheduled>, last: Scheduled, x: Scheduled)
    ensures Insert([], x) == [x]
    ensures Insert(s + [last], x) == if last.offset <= x.offset then s + [last] + [x] else Insert(s, x) + [last]
  {
    assert (s + [last])[..|s|] == s;
  }

  lemma AppendView(s: seq<Scheduled>, x: Scheduled, v: View)
    requires AllBefore(s, x.offset)
    ensures Insert(s, x) == s + [x]
    ensures Only(s + [x], v) == if Shows(v, x) then Insert(Only(s, v), x) else Only(s, v)
  {
    OnlyMembers(s, v);
    EndsEarly(Only(s, v), x);
    EndsEarly(s, x);
    OnlyOneMore(s, x, v);
    hide Insert, Only, Shows;
    assert Only(s, v) + [] == Only(s, v);
  }

  lemma ShiftView(front: seq<Scheduled>, last: Scheduled, x: Scheduled, v: View)
    requires last.offset > x.offset
    requires Only(Insert(front, x), v) == if Shows(v, x) then Insert(Only(front, v), x) else Only(front, v)
    ensures Insert(front + [last], x) == Insert(front, x) + [last]
    ensures Only(Insert(front, x) + [last], v)
         == if Shows(v, x) then Insert(Only(front + [last], v), x) else Only(front + [last], v)
  {
    hide Insert, Only, Shows;
    InsertAfter(front, last, x);
    OnlyOneMore(front, last, v);
    OnlyOneMore(Insert(front, x), last, v);
    InsertAfter(Only(front, v), last, x);
    assert Only(front, v) + [] == Only(front, v) && Only(Insert(front, x), v) + [] == Only(Insert(front, x), v);
  }

  lemma {:induction false} InsertView(s: seq<Scheduled>, x: Scheduled, v: View)
    requires InOrder(s)
    ensures Only(Insert(s, x), v) == if Shows(v, x) then Insert(Only(s, v), x) else Only(s, v)
  {
    hide Insert, Only, Shows;
    if s == [] || s[|s| - 1].offset <= x.offset {
      AppendView(s, x, v);
    } else {
      var front, last := s[..|s| - 1], s[|s| - 1];
      InsertView(front, x, v);
      assert s == front + [last];
      ShiftView(front, last, x, v);
    }
  }

  lemma EndsEarly(s: seq<Scheduled>, x: Scheduled)
    requires forall f :: f in s ==> f.offset <= x.offset
    ensures Insert(s, x) == s + [x]
  {
  }

  /** Looking at part of a sorted timeline is sorting that part. */
  lemma {:induction false} SortView(fs: seq<Scheduled>, v: View)
    ensures Only(StableSort(fs), v) == StableSort(Only(fs, v))
  {
    if fs != [] {
      var front, last := fs[..|fs| - 1], fs[|fs| - 1];
      SortView(front, v);
      SortSorts(front);
      hide Insert, InOrder, Shows;
      InsertView(StableSort(front), last, v);
      assert Only(front, v) + [] == Only(front, v);
    }
  }

  lemma {:induction false} SortedStays(fs: seq<Scheduled>)
    requires InOrder(fs)
    ensures StableSort(fs) == fs
  {
    if fs != [] {
      SortedStays(fs[..|fs| - 1]);
    }
  }

  lemma AtOneTime(fs: seq<Scheduled>, t: real)
    ensures InOrder(Only(fs, At(t)))
  {
    OnlyMembers(fs, At(t));
    var same := Only(fs, At(t));
    assert forall i :: 0 <= i < |same| ==> same[i] in same;
  }

  /** The sort is stable: frames of one instant keep the order in which they were made. */
  lemma SortIsStable(fs: seq<Scheduled>, t: real)
    ensures Only(StableSort(fs), At(t)) == Only(fs, At(t))
  {
    SortView(fs, At(t));
    AtOneTime(fs, t);
    hide InOrder, StableSort, Only;
    SortedStays(Only(fs, At(t)));
  }

  lemma {:induction false} InsertPast(early: seq<Scheduled>, s: seq<Scheduled>, x: Scheduled)
    requires AllBefore(early, x.offset)
    ensures Insert(early + s, x) == early + Insert(s, x)
  {
    if s == [] {
      assert early + s == early;
    } else {
      assert (early + s)[..|early + s| - 1] == early + s[..|s| - 1];
      if s[|s| - 1].offset > x.offset {
        InsertPast(early, s[..|s| - 1], x);
      }
    }
  }

  lemma SortedBefore(fs: seq<Scheduled>, t: real)
    requires AllBefore(fs, t)
    ensures AllBefore(StableSort(fs), t)
  {
    SortSorts(fs);
    var sorted := StableSort(fs);
    hide StableSort;
    forall i | 0 <= i < |sorted| ensures sorted[i].offset <= t {
      assert sorted[i] in multiset(sorted);
      assert sorted[i] in fs;
    }
  }

  /** Frames that are all due before the others are sorted on their own. */
  lemma {:induction false} SortSplits(early: seq<Scheduled>, late: seq<Scheduled>)
    requires forall x :: x in late ==> AllBefore(early, x.offset)
    ensures StableSort(early + late) == StableSort(early) + StableSort(late)
  {
    if late == [] {
      assert early + late == early;
    } else {
      hide Insert, AllBefore;
      var front, last := late[..|late| - 1], late[|late| - 1];
      assert (early + late)[..|early + late| - 1] == early + front;
      SortSplits(early, front);
      SortedBefore(early, last.offset);
      InsertPast(StableSort(early), StableSort(front), last);
    }
  }
}
