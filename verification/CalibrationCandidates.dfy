/** Candidate thresholds: nearest-rank percentiles of measured readings, rounded down, and
    thinned evenly to a limit. */
module CalibrationCandidates {
  import opened Bags
  import opened Rounding
  import opened OpinionClusters
  import opened Calibration

  // ---------------------------------------------------------------- percentiles

  function RankIndex(q: int, n: nat): nat
    requires n > 0
  {
    var index := HalfEven(q * (n - 1), 100);
    if index < 0 then 0 else if index > n - 1 then n - 1 else index
  }

  /** The nearest rank, and the ends for what lies beyond them. */
  lemma RankIs(q: int, n: nat)
    requires n > 0
    ensures q <= 0 ==> RankIndex(q, n) == 0
    ensures q >= 100 ==> RankIndex(q, n) == n - 1
    ensures 0 <= q <= 100 ==> RankIndex(q, n) == HalfEven(q * (n - 1), 100)
  {
    hide HalfEven;
    HalfEvenExact(0, 100);
    HalfEvenExact(n - 1, 100);
    if q <= 0 {
      Scaled(q, 0, n - 1);
      HalfEvenMonotone(q * (n - 1), 0, 100);
    } else if q >= 100 {
      Scaled(100, q, n - 1);
      HalfEvenMonotone(100 * (n - 1), q * (n - 1), 100);
    } else {
      Scaled(0, q, n - 1);
      Scaled(q, 100, n - 1);
      HalfEvenMonotone(0, q * (n - 1), 100);
      HalfEvenMonotone(q * (n - 1), 100 * (n - 1), 100);
    }
  }

  lemma Scaled(a: int, b: int, n: nat)
    requires a <= b
    ensures a * n <= b * n
  {
  }

  method Percentiles(values: seq<real>, qs: seq<int>) returns (r: map<int, real>)
    ensures values == [] ==> r == map[]
    ensures values != [] ==> r.Keys == set q | q in qs
    ensures values != [] ==>
              && |SortUp(values)| == |values|
              && forall q :: q in r ==> r[q] == SortUp(values)[RankIndex(q, |values|)]
    ensures forall q :: q in r ==> r[q] in values
  {
    var ordered := SortUp(values);
    SortUpSorts(values);
    r := map[];
    if ordered == [] {
      return;
    }
    for i := 0 to |qs|
      invariant r.Keys == set q | q in qs[..i]
      invariant forall q :: q in r ==> r[q] == ordered[RankIndex(q, |values|)]
    {
      assert qs[..i + 1] == qs[..i] + [qs[i]];
      r := r[qs[i] := ordered[RankIndex(qs[i], |values|)]];
    }
    assert qs[..|qs|] == qs;
    forall q | q in r ensures r[q] in values {
      assert r[q] in Values(ordered);
      assert r[q] in Values(values);
    }
  }

  /** The rank needs no clamping between 0 and 100, is the least reading at 0 and the greatest at
      100, and never falls as q rises. */
  lemma RanksInOrder(p: int, q: int, n: nat)
    requires n > 0 && 0 <= p <= q <= 100
    ensures 0 <= HalfEven(p * (n - 1), 100) <= n - 1
    ensures RankIndex(0, n) == 0 && RankIndex(100, n) == n - 1
    ensures RankIndex(p, n) <= RankIndex(q, n)
  {
    HalfEvenExact(0, 100);
    HalfEvenExact(n - 1, 100);
    Between(p, q, n - 1);
    HalfEvenMonotone(0, p * (n - 1), 100);
    HalfEvenMonotone(p * (n - 1), q * (n - 1), 100);
    HalfEvenMonotone(q * (n - 1), 100 * (n - 1), 100);
  }

  lemma Between(p: int, q: int, m: nat)
    requires 0 <= p <= q <= 100
    ensures 0 <= p * m <= q * m <= 100 * m
  {
    if m > 0 {
      Scales(m, 0, p);
      Scales(m, p, q);
      Scales(m, q, 100);
    }
  }

  // ---------------------------------------------------------------- rounding down

  function FloorTo(value: real, scale: nat): real
    requires scale > 0
  {
    (value * scale as real).Floor as real / scale as real
  }

  lemma FloorToIsBelow(value: real, scale: nat)
    requires scale > 0
    ensures FloorTo(value, scale) <= value
  {
    var s := scale as real;
    var n := (value * s).Floor as real;
    assert n <= value * s;
  }

  /** A theta taken, rounded down, from an edge of some resident lets that resident past the peers
      gate for as many peers as the rank of the edge, whatever else the report has put beside it.
      When no further edge reaches theta, that is as far as it goes. */
  lemma ThetaAdmitsItsSource(f: Fact, d: Data, g: Gates, scale: nat, i: nat)
    requires scale > 0 && Falling(EdgesFor(d, f)) && i < |EdgesFor(d, f)|
    requires g.theta == FloorTo(EdgesFor(d, f)[i], scale)
    ensures g.peers <= i + 1 ==> !FailsPeers(f, d, g)
    ensures i + 1 == |EdgesFor(d, f)| || EdgesFor(d, f)[i + 1] < g.theta ==>
              (!FailsPeers(f, d, g) <==> g.peers <= i + 1)
  {
    var edges := EdgesFor(d, f);
    FloorToIsBelow(edges[i], scale);
    QualifiedIsAPrefix(edges, g.theta, i);
    if i + 1 < |edges| {
      QualifiedIsAPrefix(edges, g.theta, i + 1);
    }
    hide FloorTo, EdgesFor, Qualified;
  }

  /** And a day count taken, rounded down, from some resident's age lets that resident through. */
  lemma DaysAdmitTheirSource(f: Fact, d: Data, g: Gates, scale: nat)
    requires scale > 0 && g.days == FloorTo(Age(f, d.now), scale)
    ensures !FailsDays(f, d, g)
  {
    FloorToIsBelow(Age(f, d.now), scale);
    hide FloorTo;
  }

  // ---------------------------------------------------------------- thinning

  ghost predicate Climbing(xs: seq<real>) { forall i, j :: 0 <= i < j < |xs| ==> xs[i] < xs[j] }

  /** Neighbouring repeats dropped. */
  function Squeeze(ys: seq<real>): seq<real> {
    if |ys| < 2 then ys
    else
      var front, last := Squeeze(ys[..|ys| - 1]), ys[|ys| - 1];
      if front != [] && front[|front| - 1] == last then front else front + [last]
  }

  /** A set of readings in rising order. */
  function SortedSet(xs: seq<real>): seq<real> { Squeeze(SortUp(xs)) }

  function PickAt(i: nat, n: nat, limit: int): nat
    requires n > 0 && limit >= 2
  {
    var at := HalfEven(i * (n - 1), limit - 1);
    if at > n - 1 then n - 1 else if at < 0 then 0 else at
  }

  function Picks(values: seq<real>, limit: int, count: nat): seq<real>
    requires values != [] && limit >= 2
  {
    if count == 0 then [] else Picks(values, limit, count - 1) + [values[PickAt(count - 1, |values|, limit)]]
  }

  function CapEvenly(values: seq<real>, limit: int): seq<real>
    requires values != [] || limit >= 0
  {
    if |values| <= limit then values
    else if limit <= 1 then [values[0]]
    else SortedSet(Picks(values, limit, limit))
  }

  lemma {:induction false} SqueezeEnds(ys: seq<real>)
    ensures (ys == [] <==> Squeeze(ys) == []) && (ys != [] ==> Squeeze(ys)[|Squeeze(ys)| - 1] == ys[|ys| - 1])
    ensures Values(Squeeze(ys)) == Values(ys)
  {
    if |ys| >= 2 {
      hide Values;
      var front, last := ys[..|ys| - 1], ys[|ys| - 1];
      assert ys == front + [last];
      SqueezeEnds(front);
      ValuesOneMore(front, last);
      ValuesOneMore(Squeeze(front), last);
      ValuesOf(Squeeze(front), |Squeeze(front)| - 1);
    }
  }

  lemma ValuesOneMore(xs: seq<real>, x: real)
    ensures Values(xs + [x]) == Values(xs) + {x}
  {
  }

  lemma ValuesOf(xs: seq<real>, i: nat)
    requires i < |xs|
    ensures xs[i] in Values(xs) && Values(xs) + {xs[i]} == Values(xs)
  {
  }

  lemma ClimbOn(xs: seq<real>, x: real)
    requires Climbing(xs) && (xs != [] ==> xs[|xs| - 1] < x)
    ensures Climbing(xs + [x])
  {
  }

  lemma {:induction false} SqueezeClimbs(ys: seq<real>)
    requires Rising(ys)
    ensures Climbing(Squeeze(ys))
  {
    hide Values;
    if |ys| >= 2 {
      var front, last := ys[..|ys| - 1], ys[|ys| - 1];
      assert front[|front| - 1] <= last;
      SqueezeClimbs(front);
      SqueezeEnds(front);
      if Squeeze(front)[|Squeeze(front)| - 1] != last {
        ClimbOn(Squeeze(front), last);
      }
    }
  }

  lemma {:induction false} SqueezeStays(ys: seq<real>)
    requires Climbing(ys)
    ensures Squeeze(ys) == ys
  {
    if |ys| >= 2 {
      SqueezeStays(ys[..|ys| - 1]);
    }
  }

  lemma {:induction false} ClimbingIsSorted(xs: seq<real>)
    requires Climbing(xs)
    ensures Rising(xs) && SortUp(xs) == xs
  {
    if xs != [] {
      ClimbingIsSorted(xs[..|xs| - 1]);
    }
  }

  lemma ClimbingStays(xs: seq<real>)
    requires Climbing(xs)
    ensures SortedSet(xs) == xs
  {
    ClimbingIsSorted(xs);
    SqueezeStays(xs);
  }

  /** With more values than the limit the steps are longer than one, so no two picks coincide;
      the first and the last value are picked. */
  lemma PicksStep(i: nat, n: nat, limit: int)
    requires limit >= 2 && n > limit && i < limit - 1
    ensures PickAt(i, n, limit) < PickAt(i + 1, n, limit) <= n - 1
    ensures PickAt(0, n, limit) == 0 && PickAt(limit - 1, n, limit) == n - 1
  {
    HalfEvenExact(0, limit - 1);
    HalfEvenExact(n - 1, limit - 1);
    Steps(i, n - 1, limit - 1);
    HalfEvenMonotone(0, i * (n - 1), limit - 1);
    HalfEvenSteps(i * (n - 1), (i + 1) * (n - 1), limit - 1);
    HalfEvenMonotone((i + 1) * (n - 1), (limit - 1) * (n - 1), limit - 1);
  }

  lemma Steps(i: nat, m: nat, last: nat)
    requires i < last < m
    ensures (i + 1) * m - i * m == m && 0 <= i * m && (i + 1) * m <= last * m
  {
    Scales(m, i + 1, last);
  }

  lemma {:induction false} PicksClimb(values: seq<real>, limit: int, count: nat)
    requires limit >= 2 && |values| > limit && Climbing(values) && count <= limit
    ensures var r := Picks(values, limit, count);
            && |r| == count && Climbing(r)
            && (count > 0 ==> r[0] == values[0] && r[count - 1] == values[PickAt(count - 1, |values|, limit)])
            && (forall x :: x in r ==> x in values)
  {
    if count > 0 {
      PicksClimb(values, limit, count - 1);
      hide PickAt;
      if count > 1 {
        PicksStep(count - 2, |values|, limit);
      } else {
        PicksStep(0, |values|, limit);
      }
    }
  }

  /** Thinning a rising list gives exactly `limit` different values of it, in order, the first
      and the last among them. */
  lemma CapEvenlyExact(values: seq<real>, limit: int)
    requires limit >= 2 && |values| > limit && Climbing(values)
    ensures var r := CapEvenly(values, limit);
            && |r| == limit && Climbing(r) && r[0] == values[0] && r[limit - 1] == values[|values| - 1]
            && forall x :: x in r ==> x in values
  {
    PicksClimb(values, limit, limit);
    ClimbingStays(Picks(values, limit, limit));
    PicksStep(0, |values|, limit);
    hide PickAt, Picks, SortedSet;
  }

  /** Whatever the list and the limit, nothing is made up. */
  lemma CapEvenlyOnlyChooses(values: seq<real>, limit: int, x: real)
    requires (values != [] || limit >= 0) && x in CapEvenly(values, limit)
    ensures x in values
  {
    if |values| > limit && limit >= 2 {
      var picks := Picks(values, limit, limit);
      SortUpSorts(picks);
      SqueezeEnds(SortUp(picks));
      assert x in Values(SortedSet(picks));
      PicksChoose(values, limit, limit, x);
    }
  }

  lemma {:induction false} PicksChoose(values: seq<real>, limit: int, count: nat, x: real)
    requires values != [] && limit >= 2
    ensures x in Picks(values, limit, count) ==> x in values
  {
    if count > 0 {
      PicksChoose(values, limit, count - 1, x);
      hide PickAt;
    }
  }

  /** Which values are kept, by their places in the list. */
  lemma CapEvenlyPicks(values: seq<real>, limit: int, i: nat)
    requires limit >= 2 && |values| > limit && Climbing(values) && i < limit
    ensures |CapEvenly(values, limit)| == limit
    ensures var at := HalfEven(i * (|values| - 1), limit - 1);
            0 <= at < |values| && CapEvenly(values, limit)[i] == values[at]
  {
    hide *;
    PickIs(i, |values|, limit);
    PickedOut(values, limit);
  }

  lemma PickedOut(values: seq<real>, limit: int)
    requires limit >= 2 && |values| > limit && Climbing(values)
    ensures |CapEvenly(values, limit)| == limit
    ensures forall i: nat :: i < limit ==> CapEvenly(values, limit)[i] == values[PickAt(i, |values|, limit)]
  {
    PicksClimb(values, limit, limit);
    ClimbingStays(Picks(values, limit, limit));
    PicksAre(values, limit, limit);
    hide PickAt, Picks, SortedSet, Climbing;
  }

  lemma {:induction false} PicksAre(values: seq<real>, limit: int, count: nat)
    requires values != [] && limit >= 2
    ensures |Picks(values, limit, count)| == count
    ensures forall i :: 0 <= i < count ==> Picks(values, limit, count)[i] == values[PickAt(i, |values|, limit)]
  {
    if count > 0 {
      PicksAre(values, limit, count - 1);
      hide PickAt;
    }
  }

  lemma PickIs(i: nat, n: nat, limit: int)
    requires n > 0 && limit >= 2 && i < limit
    ensures PickAt(i, n, limit) == HalfEven(i * (n - 1), limit - 1) && 0 <= HalfEven(i * (n - 1), limit - 1) < n
  {
    hide HalfEven;
    HalfEvenExact(0, limit - 1);
    HalfEvenExact(n - 1, limit - 1);
    Scaled(0, i, n - 1);
    Scaled(i, limit - 1, n - 1);
    HalfEvenMonotone(0, i * (n - 1), limit - 1);
    HalfEvenMonotone(i * (n - 1), (limit - 1) * (n - 1), limit - 1);
  }

  // ---------------------------------------------------------------- candidates for a gate

  /** The rounding of a percentile of one of the samples. */
  ghost predicate Marked(c: real, samples: seq<seq<real>>, qs: seq<int>, scale: nat)
    requires scale > 0
  {
    exists s :: s in samples && MarkedIn(c, s, qs, scale)
  }

  ghost predicate MarkedIn(c: real, s: seq<real>, qs: seq<int>, scale: nat)
    requires scale > 0
  {
    exists q :: q in qs && MarkOf(c, s, q, scale)
  }

  ghost predicate MarkOf(c: real, s: seq<real>, q: int, scale: nat)
    requires scale > 0
  {
    s != [] && RankIndex(q, |s|) < |SortUp(s)| && c == FloorTo(SortUp(s)[RankIndex(q, |s|)], scale)
  }

  /** The rounding of a reading of one of the samples. */
  ghost predicate Sourced(c: real, samples: seq<seq<real>>, scale: nat)
    requires scale > 0
  {
    exists s, v :: s in samples && v in s && c == FloorTo(v, scale)
  }

  lemma FloorIsSourced(v: real, readings: seq<real>, samples: seq<seq<real>>, scale: nat)
    requires scale > 0 && v in readings && readings in samples
    ensures Sourced(FloorTo(v, scale), samples, scale)
  {
  }

  /** The percentiles of one sample, rounded down. */
  method Marks(readings: seq<real>, qs: seq<int>, scale: nat, ghost samples: seq<seq<real>>) returns (floors: seq<real>)
    requires scale > 0 && readings in samples
    ensures forall c :: c in floors ==> Sourced(c, samples, scale)
    ensures forall c :: c in floors <==> MarkedIn(c, readings, qs, scale)
  {
    hide FloorTo, SortUp, Sourced, MarkedIn, MarkOf, RankIndex;
    var marks := Percentiles(readings, qs);
    assert forall q :: q in marks ==> marks[q] in readings;
    floors := [];
    NoMarks(readings, scale);
    for i := 0 to |qs|
      invariant forall c :: c in floors ==> Sourced(c, samples, scale)
      invariant forall c :: c in floors <==> MarkedIn(c, readings, qs[..i], scale)
    {
      OneMoreMark(readings, qs, i, scale);
      MarkIs(readings, qs[i], scale);
      if qs[i] in marks {
        FloorIsSourced(marks[qs[i]], readings, samples, scale);
        ghost var before := floors;
        floors := floors + [FloorTo(marks[qs[i]], scale)];
        assert forall c :: c in floors <==> c in before || MarkOf(c, readings, qs[i], scale);
      }
      assert forall c :: c in floors <==> MarkedIn(c, readings, qs[..i], scale) || MarkOf(c, readings, qs[i], scale);
    }
    assert qs[..|qs|] == qs;
  }

  lemma OneMoreMark(s: seq<real>, qs: seq<int>, i: nat, scale: nat)
    requires scale > 0 && i < |qs|
    ensures forall c :: MarkedIn(c, s, qs[..i + 1], scale) <==>
                        MarkedIn(c, s, qs[..i], scale) || MarkOf(c, s, qs[i], scale)
  {
    hide MarkOf;
    assert qs[..i + 1] == qs[..i] + [qs[i]];
  }

  lemma MarkIs(s: seq<real>, q: int, scale: nat)
    requires scale > 0
    ensures s == [] ==> forall c :: !MarkOf(c, s, q, scale)
    ensures s != [] ==>
              && RankIndex(q, |s|) < |s| == |SortUp(s)|
              && forall c :: MarkOf(c, s, q, scale) <==> c == FloorTo(SortUp(s)[RankIndex(q, |s|)], scale)
  {
    SortUpSorts(s);
    if s != [] {
      RankInside(q, |s|);
    }
    hide SortUp, RankIndex, FloorTo;
  }

  lemma RankInside(q: int, n: nat)
    requires n > 0
    ensures RankIndex(q, n) < n
  {
    hide HalfEven;
  }

  lemma NoMarks(s: seq<real>, scale: nat)
    requires scale > 0
    ensures forall c :: !MarkedIn(c, s, [], scale)
  {
  }

  /** Percentiles of the samples, rounded down, merged without repeats, thinned: each candidate is
      the rounding of a reading of some sample, and there are never more than the limit. */
  method Candidates(samples: seq<seq<real>>, qs: seq<int>, scale: nat, limit: nat) returns (r: seq<real>)
    requires scale > 0
    ensures forall c :: c in r ==> Sourced(c, samples, scale)
    ensures exists all :: Climbing(all) && (forall c :: c in all <==> Marked(c, samples, qs, scale))
              && r == CapEvenly(all, limit)
    ensures (forall s :: s in samples ==> s == []) ==> r == []
    ensures limit >= 2 ==> |r| <= limit
    ensures limit >= 2 ==> Climbing(r)
  {
    hide Sourced, SortedSet, MarkedIn;
    var floors: seq<real> := [];
    for i := 0 to |samples|
      invariant forall c :: c in floors ==> Sourced(c, samples, scale)
      invariant forall c :: c in floors <==> Marked(c, samples[..i], qs, scale)
    {
      var more := Marks(samples[i], qs, scale, samples);
      MarkedOneMore(samples, i, qs, scale);
      floors := floors + more;
    }
    TakeAll(samples);
    NoReadings(samples, qs, scale, floors);
    SortedSetClimbs(floors);
    var ordered := SortedSet(floors);
    r := CapEvenly(ordered, limit);
    hide Marked;
    assert Climbing(ordered) && (forall c :: c in ordered <==> Marked(c, samples, qs, scale));
    forall c | c in r ensures c in floors {
      CapEvenlyOnlyChooses(ordered, limit, c);
    }
    if limit >= 2 && |ordered| > limit {
      CapEvenlyExact(ordered, limit);
    }
  }

  lemma MarkedOneMore(samples: seq<seq<real>>, i: nat, qs: seq<int>, scale: nat)
    requires scale > 0 && i < |samples|
    ensures forall c :: Marked(c, samples[..i + 1], qs, scale) <==>
                        Marked(c, samples[..i], qs, scale) || MarkedIn(c, samples[i], qs, scale)
  {
    hide MarkedIn;
    assert samples[..i + 1] == samples[..i] + [samples[i]];
  }

  lemma NoReadings(samples: seq<seq<real>>, qs: seq<int>, scale: nat, floors: seq<real>)
    requires scale > 0 && forall c :: c in floors <==> Marked(c, samples, qs, scale)
    ensures floors != [] ==> exists s :: s in samples && s != []
  {
    if floors != [] {
      var c := floors[0];
      assert c in floors;
      var s :| s in samples && MarkedIn(c, s, qs, scale);
    }
  }

  function AllEdges(d: Data): Fact -> seq<real> { (f: Fact) => EdgesFor(d, f) }

  /** The k-th highest edge of whoever has that many. */
  function KthEdge(d: Data, k: nat): Fact -> seq<real>
    requires k >= 1
  {
    (f: Fact) => if |EdgesFor(d, f)| >= k then [EdgesFor(d, f)[k - 1]] else []
  }

  /** An edge of a resident the candidate was rounded from. */
  ghost predicate EdgeOf(c: real, f: Fact, i: nat, d: Data, scale: nat)
    requires scale > 0
  {
    i < |EdgesFor(d, f)| && c == FloorTo(EdgesFor(d, f)[i], scale)
  }

  /** The candidates for theta, from everybody's edges and everybody's k-th edges: each comes from
      an edge of some resident, so by `ThetaAdmitsItsSource` that resident passes the peers gate
      under it for as many peers as the rank of that edge. */
  method ThetaCandidates(fs: seq<Fact>, d: Data, k: nat, qs: seq<int>, scale: nat, limit: nat) returns (r: seq<real>)
    requires scale > 0 && k >= 1
    ensures forall c :: c in r ==> exists f, i :: f in fs && EdgeOf(c, f, i, d, scale)
    ensures exists everybody, kth, all ::
              && (forall v :: v in everybody <==> exists f, i: nat :: f in fs && EdgeAt(d, f, i, v))
              && (forall v :: v in kth <==> exists f :: f in fs && EdgeAt(d, f, k - 1, v))
              && Climbing(all) && (forall c :: c in all <==> Marked(c, [everybody, kth], qs, scale))
              && r == CapEvenly(all, limit)
    ensures limit >= 2 ==> |r| <= limit && Climbing(r)
  {
    hide FloorTo, EdgesFor, Marked, CapEvenly;
    SamplesAre(fs, d, k);
    var everybody, kth := Concat(fs, AllEdges(d)), Concat(fs, KthEdge(d, k));
    r := Candidates([everybody, kth], qs, scale, limit);
    forall c | c in r ensures exists f, i :: f in fs && EdgeOf(c, f, i, d, scale) {
      var s, v :| s in [everybody, kth] && v in s && c == FloorTo(v, scale);
      ReadingsAreEdges(fs, d, k, v);
      var f, i: nat :| f in fs && i < |EdgesFor(d, f)| && EdgesFor(d, f)[i] == v;
      assert EdgeOf(c, f, i, d, scale);
    }
  }

  ghost predicate EdgeAt(d: Data, f: Fact, i: nat, v: real) { i < |EdgesFor(d, f)| && EdgesFor(d, f)[i] == v }

  lemma SamplesAre(fs: seq<Fact>, d: Data, k: nat)
    requires k >= 1
    ensures forall v :: v in Concat(fs, AllEdges(d)) <==> exists f, i: nat :: f in fs && EdgeAt(d, f, i, v)
    ensures forall v :: v in Concat(fs, KthEdge(d, k)) <==> exists f :: f in fs && EdgeAt(d, f, k - 1, v)
  {
    hide EdgesFor;
    forall v ensures v in Concat(fs, AllEdges(d)) <==> exists f, i: nat :: f in fs && EdgeAt(d, f, i, v) {
      ConcatMember(fs, AllEdges(d), v);
      if f :| f in fs && v in AllEdges(d)(f) {
        var i: nat :| i < |EdgesFor(d, f)| && EdgesFor(d, f)[i] == v;
        assert EdgeAt(d, f, i, v);
      }
    }
    forall v ensures v in Concat(fs, KthEdge(d, k)) <==> exists f :: f in fs && EdgeAt(d, f, k - 1, v) {
      ConcatMember(fs, KthEdge(d, k), v);
    }
  }

  lemma ReadingsAreEdges(fs: seq<Fact>, d: Data, k: nat, v: real)
    requires k >= 1
    requires v in Concat(fs, AllEdges(d)) || v in Concat(fs, KthEdge(d, k))
    ensures exists f, i: nat :: f in fs && i < |EdgesFor(d, f)| && EdgesFor(d, f)[i] == v
  {
    ConcatMember(fs, AllEdges(d), v);
    ConcatMember(fs, KthEdge(d, k), v);
  }

  lemma SortedSetClimbs(xs: seq<real>)
    ensures Climbing(SortedSet(xs)) && forall x :: x in SortedSet(xs) <==> x in xs
    ensures xs == [] ==> SortedSet(xs) == []
  {
    SortUpSorts(xs);
    SqueezeEnds(SortUp(xs));
    SqueezeClimbs(SortUp(xs));
    forall x ensures x in SortedSet(xs) <==> x in xs {
      assert x in SortedSet(xs) <==> x in Values(SortedSet(xs));
      assert x in xs <==> x in Values(xs);
    }
  }
}
