/** Thinning a walked grid path to a given number of points without cutting a corner. */
module CaravanPath {
  import opened Bags

  type Tile = (int, int)

  datatype Rejection = EmptyPath | TooFewPoints | TooManyCorners

  datatype Outcome = Rejected(why: Rejection) | Sampled(kept: seq<int>, tiles: seq<Tile>)

  function Heading(path: seq<Tile>, i: int): (int, int)
    requires 0 <= i < i + 1 < |path|
  {
    (path[i + 1].0 - path[i].0, path[i + 1].1 - path[i].1)
  }

  predicate FourNeighbour(path: seq<Tile>) {
    forall i | 0 <= i < |path| - 1 :: Heading(path, i) in {(1, 0), (-1, 0), (0, 1), (0, -1)}
  }

  predicate Turns(path: seq<Tile>, i: int) {
    0 < i < |path| - 1 && Heading(path, i - 1) != Heading(path, i)
  }

  /** Both ends, and every index where the heading changes. */
  predicate Required(path: seq<Tile>, i: int) {
    i == 0 || i == |path| - 1 || Turns(path, i)
  }

  ghost function Corners(path: seq<Tile>): set<int> { set i | 0 <= i < |path| && Required(path, i) }

  // ---------------------------------------------------------------- sets of indexes in order

  function Ascending(s: set<int>, n: nat): (r: seq<int>) {
    if n == 0 then [] else Ascending(s, n - 1) + if n - 1 in s then [n - 1] else []
  }

  ghost predicate Within(s: set<int>, n: nat) { forall i :: i in s ==> 0 <= i < n }

  /** Strictly increasing, and holding exactly what is in the set. */
  ghost predicate Orders(r: seq<int>, s: set<int>) {
    && (forall i, j :: 0 <= i < j < |r| ==> r[i] < r[j])
    && (forall i :: 0 <= i < |r| ==> r[i] in s)
    && (forall x :: x in s ==> x in r)
  }

  lemma {:induction false} AscendingOrders(s: set<int>, n: nat)
    ensures Orders(Ascending(s, n), set x | x in s && 0 <= x < n)
  {
    if n != 0 {
      AscendingOrders(s, n - 1);
      var shorter := Ascending(s, n - 1);
      forall x | x in s && 0 <= x < n ensures x in Ascending(s, n) {
        if x < n - 1 {
          assert x in shorter;
        }
      }
    }
  }

  lemma {:induction false} AscendingCounts(s: set<int>, n: nat)
    requires Within(s, n)
    ensures |Ascending(s, n)| == |s| <= n
  {
    if n == 0 {
      assert forall i :: i !in s;
      assert s == {};
    } else {
      AscendingCounts(s - {n - 1}, n - 1);
      SameBelow(s, s - {n - 1}, n - 1);
    }
  }

  lemma AscendingSorts(s: set<int>, n: nat)
    requires Within(s, n)
    ensures Orders(Ascending(s, n), s) && |Ascending(s, n)| == |s| <= n
  {
    AscendingOrders(s, n);
    assert s == set x | x in s && 0 <= x < n;
    AscendingCounts(s, n);
  }

  lemma {:induction false} SameBelow(s: set<int>, t: set<int>, n: nat)
    requires forall i :: 0 <= i < n ==> (i in s <==> i in t)
    ensures Ascending(s, n) == Ascending(t, n)
  {
    if n != 0 {
      SameBelow(s, t, n - 1);
    }
  }

  /** Two kept indexes with nothing kept between them. */
  ghost predicate Adjacent(s: set<int>, a: int, b: int) {
    a in s && b in s && a < b && forall i :: i in s ==> i <= a || b <= i
  }

  /** Spans cut by a bisection are at least half as long as any span that is left. */
  ghost predicate Balanced(s: set<int>, corners: set<int>) {
    forall a, b, c, d :: Adjacent(s, a, b) && Adjacent(s, c, d) && !(a in corners && b in corners) ==>
          b - a >= (d - c) / 2
  }

  // ---------------------------------------------------------------- what a sample is

  /** A hop along one heading: nothing between its ends turns. */
  ghost predicate Straight(path: seq<Tile>, a: int, b: int)
    requires 0 <= a < b < |path|
  {
    forall i | a <= i < b :: Heading(path, i) == Heading(path, a)
  }

  ghost predicate IsSample(path: seq<Tile>, kept: seq<int>, tiles: seq<Tile>) {
    && |path| > 0 && |tiles| == |kept| > 0
    && kept[0] == 0 && kept[|kept| - 1] == |path| - 1
    && (forall i :: 0 <= i < |kept| ==> 0 <= kept[i] < |path| && tiles[i] == path[kept[i]])
    && (forall i :: 0 <= i < |kept| - 1 ==> kept[i] < kept[i + 1] && Straight(path, kept[i], kept[i + 1]))
    && (forall i :: 0 <= i < |path| && Required(path, i) ==> i in kept)
  }

  /** On a grid path every hop stays on one row or one column of the path it came from. */
  lemma HopsFollowRowsAndColumns(path: seq<Tile>, kept: seq<int>, tiles: seq<Tile>, k: nat)
    requires FourNeighbour(path) && IsSample(path, kept, tiles) && k + 1 < |kept|
    ensures (forall i :: kept[k] <= i <= kept[k + 1] ==> path[i].0 == tiles[k].0)
         || (forall i :: kept[k] <= i <= kept[k + 1] ==> path[i].1 == tiles[k].1)
  {
    var a, b := kept[k], kept[k + 1];
    assert Straight(path, a, b);
    assert Heading(path, a) in {(1, 0), (-1, 0), (0, 1), (0, -1)};
    hide IsSample, FourNeighbour;
    forall i | a <= i <= b ensures Heading(path, a).0 == 0 ==> path[i].0 == path[a].0
                            ensures Heading(path, a).1 == 0 ==> path[i].1 == path[a].1 {
      StaysOnLine(path, a, i);
    }
  }

  lemma {:induction false} StaysOnLine(path: seq<Tile>, a: int, i: int)
    requires 0 <= a <= i < |path| && a + 1 < |path| && (a < i ==> Straight(path, a, i))
    ensures Heading(path, a).0 == 0 ==> path[i].0 == path[a].0
    ensures Heading(path, a).1 == 0 ==> path[i].1 == path[a].1
  {
    if i > a {
      StaysOnLine(path, a, i - 1);
      assert Heading(path, i - 1) == Heading(path, a);
    }
  }

  // ---------------------------------------------------------------- lemmas on kept sets

  lemma NeighboursAreAdjacent(s: set<int>, n: nat, k: nat)
    requires Within(s, n) && k + 1 < |Ascending(s, n)|
    ensures Adjacent(s, Ascending(s, n)[k], Ascending(s, n)[k + 1])
  {
    AscendingSorts(s, n);
    var r := Ascending(s, n);
    forall i | i in s ensures i <= r[k] || r[k + 1] <= i {
      var at :| 0 <= at < |r| && r[at] == i;
    }
  }

  lemma AdjacentAreNeighbours(s: set<int>, n: nat, a: int, b: int) returns (k: nat)
    requires Within(s, n) && Adjacent(s, a, b)
    ensures k + 1 < |Ascending(s, n)| && Ascending(s, n)[k] == a && Ascending(s, n)[k + 1] == b
  {
    AscendingSorts(s, n);
    var r := Ascending(s, n);
    k :| 0 <= k < |r| && r[k] == a;
    var j :| 0 <= j < |r| && r[j] == b;
    assert k < j;
    assert r[k + 1] in r;
  }

  function Span(r: seq<int>, i: int): int
    requires 0 <= i < |r| - 1
  {
    r[i + 1] - r[i]
  }

  ghost predicate Widest(r: seq<int>, k: nat) {
    k + 1 < |r| && forall i | 0 <= i < |r| - 1 :: Span(r, i) <= Span(r, k)
  }

  lemma WidestOfAll(s: set<int>, n: nat, k: nat)
    requires Within(s, n) && Widest(Ascending(s, n), k)
    ensures forall a, b :: Adjacent(s, a, b) ==> b - a <= Ascending(s, n)[k + 1] - Ascending(s, n)[k]
  {
    forall a, b | Adjacent(s, a, b) ensures b - a <= Ascending(s, n)[k + 1] - Ascending(s, n)[k] {
      var i := AdjacentAreNeighbours(s, n, a, b);
      assert Span(Ascending(s, n), i) <= Span(Ascending(s, n), k);
    }
  }

  lemma EndsAreKept(s: set<int>, n: nat)
    requires n > 0 && Within(s, n) && 0 in s && n - 1 in s
    ensures var r := Ascending(s, n); |r| > 0 && r[0] == 0 && r[|r| - 1] == n - 1 && (n > 1 ==> |r| >= 2)
  {
    AscendingSorts(s, n);
    var r := Ascending(s, n);
    var i :| 0 <= i < |r| && r[i] == 0;
    var j :| 0 <= j < |r| && r[j] == n - 1;
    assert r[0] in r && r[|r| - 1] in r;
  }

  lemma {:induction false} UnitSpans(r: seq<int>, i: nat)
    requires i < |r| && r[0] == 0 && forall j | 0 <= j < |r| - 1 :: Span(r, j) <= 1
    ensures r[i] <= i
  {
    if i > 0 {
      UnitSpans(r, i - 1);
      assert Span(r, i - 1) <= 1;
    }
  }

  lemma RoomLeft(s: set<int>, n: nat, k: nat)
    requires n > 1 && Within(s, n) && 0 in s && n - 1 in s && |s| < n && Widest(Ascending(s, n), k)
    ensures Ascending(s, n)[k + 1] - Ascending(s, n)[k] > 1
  {
    var r := Ascending(s, n);
    EndsAreKept(s, n);
    AscendingSorts(s, n);
    if r[k + 1] - r[k] <= 1 {
      UnitSpans(r, |r| - 1);
    }
  }

  lemma BisectionBalances(s: set<int>, corners: set<int>, a: int, b: int)
    requires corners <= s && Balanced(s, corners) && Adjacent(s, a, b) && b - a > 1
    requires forall c, d :: Adjacent(s, c, d) ==> d - c <= b - a
    ensures Balanced(s + {(a + b) / 2}, corners)
  {
    var m := (a + b) / 2;
    var t := s + {m};
    assert m !in s;
    forall c, d | Adjacent(t, c, d) ensures Adjacent(s, c, d) || (c == a && d == m) || (c == m && d == b) {
      if c == m {
        assert b in t;
      } else if d == m {
        assert a in t;
      } else {
        assert forall i :: i in s ==> i in t;
      }
    }
    forall c, d, e, f | Adjacent(t, c, d) && Adjacent(t, e, f) && !(c in corners && d in corners)
      ensures d - c >= (f - e) / 2
    {
      assert f - e <= b - a;
    }
  }

  lemma CutIsFair(s: set<int>, corners: set<int>, n: nat, k: nat)
    requires n > 1 && corners <= s && Within(s, n) && 0 in s && n - 1 in s && |s| < n
    requires Balanced(s, corners) && Widest(Ascending(s, n), k)
    ensures var r := Ascending(s, n);
            var middle := (r[k] + r[k + 1]) / 2;
            && r[k + 1] - r[k] > 1 && |s + {middle}| == |s| + 1
            && Within(s + {middle}, n) && Balanced(s + {middle}, corners)
  {
    hide Balanced, Ascending;
    RoomLeft(s, n, k);
    NeighboursAreAdjacent(s, n, k);
    WidestOfAll(s, n, k);
    BisectionBalances(s, corners, Ascending(s, n)[k], Ascending(s, n)[k + 1]);
  }

  lemma {:induction false} StraightRun(path: seq<Tile>, a: int, b: int)
    requires 0 <= a < b < |path| && forall i :: a < i < b ==> !Turns(path, i)
    ensures Straight(path, a, b) && Heading(path, b - 1) == Heading(path, a)
  {
    if b > a + 1 {
      StraightRun(path, a, b - 1);
      assert !Turns(path, b - 1);
    }
  }

  lemma KeptSet(s: set<int>, r: seq<int>)
    requires Orders(r, s)
    ensures (set i | i in r) == s
  {
    var kept := set i | i in r;
    forall i ensures i in kept <==> i in s {
      if i in r {
        var k :| 0 <= k < |r| && r[k] == i;
      }
    }
  }

  lemma UncutIsBalanced(corners: set<int>)
    ensures Balanced(corners, corners)
  {
  }

  lemma StraightHop(path: seq<Tile>, s: set<int>, a: int, b: int)
    requires 0 <= a < b < |path| && Adjacent(s, a, b)
    requires forall i :: 0 <= i < |path| && Required(path, i) ==> i in s
    ensures Straight(path, a, b)
  {
    forall i | a < i < b ensures !Turns(path, i) {
      assert i !in s;
    }
    StraightRun(path, a, b);
  }

  lemma SampleOf(path: seq<Tile>, s: set<int>, tiles: seq<Tile>)
    requires |path| > 1 && Within(s, |path|) && Corners(path) <= s
    requires |tiles| == |Ascending(s, |path|)|
    requires forall i :: 0 <= i < |tiles| ==> tiles[i] == At(path, Ascending(s, |path|)[i])
    ensures IsSample(path, Ascending(s, |path|), tiles)
  {
    var r := Ascending(s, |path|);
    assert forall i :: 0 <= i < |path| && Required(path, i) ==> i in Corners(path);
    assert Required(path, 0) && Required(path, |path| - 1);
    EndsAreKept(s, |path|);
    AscendingSorts(s, |path|);
    hide Ascending, Straight, Turns;
    forall i | 0 <= i < |r| ensures 0 <= r[i] < |path| && tiles[i] == path[r[i]] {
      assert r[i] in s;
    }
    forall i | 0 <= i < |r| - 1 ensures r[i] < r[i + 1] && Straight(path, r[i], r[i + 1]) {
      NeighboursAreAdjacent(s, |path|, i);
      StraightHop(path, s, r[i], r[i + 1]);
    }
  }

  // ---------------------------------------------------------------- the algorithm

  method TurnIndexes(path: seq<Tile>) returns (required: set<int>)
    requires |path| > 0
    ensures required == Corners(path)
  {
    required := {0, |path| - 1};
    var prior: Option<(int, int)> := None;
    for i := 0 to |path| - 1
      invariant required == {0, |path| - 1} + set j | 0 <= j < i && Turns(path, j)
      invariant prior == if i == 0 then None else Some(Heading(path, i - 1))
    {
      var heading := Heading(path, i);
      if prior.Some? && heading != prior.value {
        required := required + {i};
      }
      prior := Some(heading);
    }
  }

  /** The first of the widest spans between neighbours. */
  method WidestSpan(ordered: seq<int>) returns (k: nat)
    requires |ordered| >= 2
    ensures Widest(ordered, k)
    ensures forall i | 0 <= i < k :: Span(ordered, i) < Span(ordered, k)
  {
    k := 0;
    for j := 1 to |ordered| - 1
      invariant k < j
      invariant forall i | 0 <= i < j :: Span(ordered, i) <= Span(ordered, k)
      invariant forall i | 0 <= i < k :: Span(ordered, i) < Span(ordered, k)
    {
      if Span(ordered, j) > Span(ordered, k) {
        k := j;
      }
    }
  }

  /** Bisects the widest span until there are as many points as wanted. */
  method FillSpans(corners: set<int>, n: nat, maxPoints: int) returns (selected: set<int>)
    requires n > 1 && Within(corners, n) && 0 in corners && n - 1 in corners && |corners| <= maxPoints && |corners| <= n
    ensures corners <= selected && Within(selected, n)
    ensures |selected| == if maxPoints < n then maxPoints else n
    ensures Balanced(selected, corners)
  {
    selected := corners;
    UncutIsBalanced(corners);
    hide Balanced, Ascending, Adjacent;
    while |selected| < (if maxPoints < n then maxPoints else n)
      invariant corners <= selected && Within(selected, n) && |selected| <= n && |selected| <= maxPoints
      invariant Balanced(selected, corners)
      decreases n - |selected|
    {
      var ordered := Ascending(selected, n);
      EndsAreKept(selected, n);
      var k := WidestSpan(ordered);
      var left, right := ordered[k], ordered[k + 1];
      CutIsFair(selected, corners, n, k);
      if right - left <= 1 {
        // With points to spare and tiles left out, some span can always be cut.
        assert false;
        break;
      }
      selected := selected + {(left + right) / 2};
    }
  }

  method SampleAxisPath(path: seq<Tile>, maxPoints: int) returns (r: Outcome)
    ensures r == Rejected(EmptyPath) <==> |path| == 0
    ensures r == Rejected(TooFewPoints) <==> |path| > 1 && maxPoints < 2
    ensures r == Rejected(TooManyCorners) <==>
            |path| > 1 && maxPoints >= 2 && |Corners(path)| > maxPoints
    ensures r.Sampled? ==>
              && IsSample(path, r.kept, r.tiles)
              && |r.tiles| == (if |path| == 1 || |path| <= maxPoints then |path| else maxPoints)
              && Balanced((set i | i in r.kept), Corners(path))
  {
    if |path| == 0 {
      return Rejected(EmptyPath);
    }
    if maxPoints < 2 && |path| > 1 {
      return Rejected(TooFewPoints);
    }
    if |path| == 1 {
      return Sampled([0], [path[0]]);
    }
    var corners := TurnIndexes(path);
    assert 0 in corners && |path| - 1 in corners && Within(corners, |path|);
    hide Corners, Balanced, Ascending, IsSample, Orders;
    if |corners| > maxPoints {
      return Rejected(TooManyCorners);
    }
    AscendingSorts(corners, |path|);
    var selected := FillSpans(corners, |path|, maxPoints);
    var kept := Ascending(selected, |path|);
    r := Sampled(kept, seq(|kept|, i requires 0 <= i < |kept| => At(path, kept[i])));
    AscendingSorts(selected, |path|);
    KeptSet(selected, kept);
    SampleOf(path, selected, r.tiles);
  }

  function At(path: seq<Tile>, i: int): Tile {
    if 0 <= i < |path| then path[i] else (0, 0)
  }
}
