/** Counting the camps of opinion on an issue.

    The report sorts the stances and starts a new cluster at every gap wider than epsilon.
    The reference notion is the graph that joins stances at most epsilon apart: the clusters
    are its connected components, whatever order the stances came in. */
module OpinionClusters {
  import opened Bags

  datatype Row = Row(issue: string, resident: string, stance: real)

  // ---------------------------------------------------------------- the graph of stances

  predicate Near(a: real, b: real, epsilon: real) { -epsilon <= a - b <= epsilon }

  ghost predicate IsPath(v: set<real>, p: seq<real>, epsilon: real) {
    && (forall i :: 0 <= i < |p| ==> p[i] in v)
    && forall i :: 0 <= i < |p| - 1 ==> Near(p[i], p[i + 1], epsilon)
  }

  ghost predicate Linked(v: set<real>, a: real, b: real, epsilon: real) {
    exists p :: IsPath(v, p, epsilon) && p != [] && p[0] == a && p[|p| - 1] == b
  }

  ghost function Component(v: set<real>, a: real, epsilon: real): set<real> {
    set b | b in v && Linked(v, a, b, epsilon)
  }

  ghost function Components(v: set<real>, epsilon: real): set<set<real>> {
    set a | a in v :: Component(v, a, epsilon)
  }

  lemma LinkedToItself(v: set<real>, a: real, epsilon: real)
    requires a in v
    ensures Linked(v, a, a, epsilon)
  {
    assert IsPath(v, [a], epsilon);
  }

  lemma LinkedBackwards(v: set<real>, a: real, b: real, epsilon: real)
    requires Linked(v, a, b, epsilon)
    ensures Linked(v, b, a, epsilon)
  {
    var p :| IsPath(v, p, epsilon) && p != [] && p[0] == a && p[|p| - 1] == b;
    var r := Reversed(p);
    forall i | 0 <= i < |r| - 1 ensures Near(r[i], r[i + 1], epsilon) {
      assert Near(p[|p| - 2 - i], p[|p| - 2 - i + 1], epsilon);
    }
    assert IsPath(v, r, epsilon);
  }

  lemma LinkedOn(v: set<real>, a: real, b: real, c: real, epsilon: real)
    requires Linked(v, a, b, epsilon) && Linked(v, b, c, epsilon)
    ensures Linked(v, a, c, epsilon)
  {
    var p :| IsPath(v, p, epsilon) && p != [] && p[0] == a && p[|p| - 1] == b;
    var q :| IsPath(v, q, epsilon) && q != [] && q[0] == b && q[|q| - 1] == c;
    var r := p + q[1..];
    forall i | 0 <= i < |r| - 1 ensures Near(r[i], r[i + 1], epsilon) {
      if i >= |p| - 1 {
        assert r[i] == q[i - |p| + 1] && r[i + 1] == q[i - |p| + 2];
      }
    }
    assert IsPath(v, r, epsilon);
    assert |q| > 1 ==> r[|r| - 1] == q[|q| - 1];
  }

  /** Two stances have the same component exactly when they are linked. */
  lemma SameComponent(v: set<real>, a: real, b: real, epsilon: real)
    requires a in v && b in v
    ensures Component(v, a, epsilon) == Component(v, b, epsilon) <==> Linked(v, a, b, epsilon)
  {
    LinkedToItself(v, b, epsilon);
    assert b in Component(v, b, epsilon);
    if Linked(v, a, b, epsilon) {
      LinkedBackwards(v, a, b, epsilon);
      forall c | c in v ensures Linked(v, a, c, epsilon) <==> Linked(v, b, c, epsilon) {
        if Linked(v, a, c, epsilon) {
          LinkedOn(v, b, a, c, epsilon);
        }
        if Linked(v, b, c, epsilon) {
          LinkedOn(v, a, b, c, epsilon);
        }
      }
    }
  }

  // ---------------------------------------------------------------- the sorted list and its levels

  ghost predicate Rising(ys: seq<real>) { forall i, j :: 0 <= i < j < |ys| ==> ys[i] <= ys[j] }

  function InsertUp(ys: seq<real>, x: real): seq<real> {
    if ys == [] || ys[|ys| - 1] <= x then ys + [x] else InsertUp(ys[..|ys| - 1], x) + [ys[|ys| - 1]]
  }

  function SortUp(xs: seq<real>): seq<real> {
    if xs == [] then [] else InsertUp(SortUp(xs[..|xs| - 1]), xs[|xs| - 1])
  }

  lemma {:induction false} InsertUpBag(ys: seq<real>, x: real)
    ensures multiset(InsertUp(ys, x)) == multiset(ys) + multiset{x}
  {
    if ys != [] {
      assert ys == ys[..|ys| - 1] + [ys[|ys| - 1]];
      InsertUpBag(ys[..|ys| - 1], x);
    }
  }

  ghost predicate AllUpTo(ys: seq<real>, top: real) { forall i :: 0 <= i < |ys| ==> ys[i] <= top }

  lemma {:induction false} InsertUpSorts(ys: seq<real>, x: real, top: real)
    requires Rising(ys) && AllUpTo(ys, top) && x <= top
    ensures Rising(InsertUp(ys, x)) && AllUpTo(InsertUp(ys, x), top)
  {
    if ys != [] && ys[|ys| - 1] > x {
      InsertUpSorts(ys[..|ys| - 1], x, ys[|ys| - 1]);
    }
  }

  lemma {:induction false} SortUpSorts(xs: seq<real>)
    ensures Rising(SortUp(xs)) && multiset(SortUp(xs)) == multiset(xs) && |SortUp(xs)| == |xs|
    ensures Values(SortUp(xs)) == Values(xs)
  {
    if xs != [] {
      hide InsertUp;
      var front, last := xs[..|xs| - 1], xs[|xs| - 1];
      assert xs == front + [last];
      SortUpSorts(front);
      var ys := SortUp(front);
      var top := if ys != [] && ys[|ys| - 1] > last then ys[|ys| - 1] else last;
      InsertUpSorts(ys, last, top);
      InsertUpBag(ys, last);
    }
    SameBag(SortUp(xs), xs);
  }

  lemma SameBag(xs: seq<real>, ys: seq<real>)
    requires multiset(xs) == multiset(ys)
    ensures |xs| == |ys| && Values(xs) == Values(ys)
  {
    assert |multiset(xs)| == |xs| && |multiset(ys)| == |ys|;
    forall x ensures x in Values(xs) <==> x in Values(ys) {
      assert x in xs <==> x in multiset(xs);
      assert x in ys <==> x in multiset(ys);
    }
  }

  /** How many gaps wider than epsilon there are up to position `k`. */
  function Level(ys: seq<real>, k: nat, epsilon: real): nat
    requires k < |ys|
  {
    if k == 0 then 0 else Level(ys, k - 1, epsilon) + if ys[k] - ys[k - 1] > epsilon then 1 else 0
  }

  function Clusters(ys: seq<real>, epsilon: real): nat {
    if ys == [] then 0 else 1 + Level(ys, |ys| - 1, epsilon)
  }

  ghost function Values(ys: seq<real>): set<real> { set y | y in ys }

  lemma {:induction false} LevelRises(ys: seq<real>, i: nat, j: nat, epsilon: real)
    requires i <= j < |ys|
    ensures Level(ys, i, epsilon) <= Level(ys, j, epsilon)
  {
    if i < j {
      LevelRises(ys, i, j - 1, epsilon);
    }
  }

  /** Stances on one level are linked, by a walk through the stances between them. */
  lemma {:induction false} SameLevelLinked(ys: seq<real>, i: nat, j: nat, epsilon: real)
    requires Rising(ys) && epsilon >= 0.0 && i <= j < |ys| && Level(ys, i, epsilon) == Level(ys, j, epsilon)
    ensures Linked(Values(ys), ys[i], ys[j], epsilon)
  {
    if i == j {
      LinkedToItself(Values(ys), ys[i], epsilon);
    } else {
      LevelRises(ys, i, j - 1, epsilon);
      SameLevelLinked(ys, i, j - 1, epsilon);
      assert IsPath(Values(ys), [ys[j - 1], ys[j]], epsilon);
      LinkedOn(Values(ys), ys[i], ys[j - 1], ys[j], epsilon);
    }
  }

  /** Stances near each other are on one level: a wider gap between them would keep them apart. */
  lemma {:induction false} NearSameLevel(ys: seq<real>, i: nat, j: nat, epsilon: real)
    requires Rising(ys) && i <= j < |ys| && ys[j] - ys[i] <= epsilon
    ensures Level(ys, i, epsilon) == Level(ys, j, epsilon)
  {
    if i < j {
      NearSameLevel(ys, i, j - 1, epsilon);
    }
  }

  function FirstAt(ys: seq<real>, y: real): (k: nat)
    requires y in ys
    ensures k < |ys| && ys[k] == y
  {
    if ys[0] == y then 0 else 1 + FirstAt(ys[1..], y)
  }

  ghost function LevelOf(ys: seq<real>, y: real, epsilon: real): nat
    requires y in ys
  {
    Level(ys, FirstAt(ys, y), epsilon)
  }

  lemma NearLevelOf(ys: seq<real>, a: real, b: real, epsilon: real)
    requires Rising(ys) && a in ys && b in ys && Near(a, b, epsilon)
    ensures LevelOf(ys, a, epsilon) == LevelOf(ys, b, epsilon)
  {
    var i, j := FirstAt(ys, a), FirstAt(ys, b);
    if i <= j {
      NearSameLevel(ys, i, j, epsilon);
    } else {
      NearSameLevel(ys, j, i, epsilon);
    }
  }

  lemma {:induction false} PathSameLevel(ys: seq<real>, p: seq<real>, epsilon: real)
    requires Rising(ys) && IsPath(Values(ys), p, epsilon) && p != []
    ensures LevelOf(ys, p[0], epsilon) == LevelOf(ys, p[|p| - 1], epsilon)
  {
    if |p| > 1 {
      var q := p[..|p| - 1];
      PathSameLevel(ys, q, epsilon);
      NearLevelOf(ys, p[|p| - 2], p[|p| - 1], epsilon);
    }
  }

  lemma LinkedIffSameLevel(ys: seq<real>, a: real, b: real, epsilon: real)
    requires Rising(ys) && epsilon >= 0.0 && a in ys && b in ys
    ensures Linked(Values(ys), a, b, epsilon) <==> LevelOf(ys, a, epsilon) == LevelOf(ys, b, epsilon)
  {
    if Linked(Values(ys), a, b, epsilon) {
      var p :| IsPath(Values(ys), p, epsilon) && p != [] && p[0] == a && p[|p| - 1] == b;
      PathSameLevel(ys, p, epsilon);
    } else {
      var i, j := FirstAt(ys, a), FirstAt(ys, b);
      if LevelOf(ys, a, epsilon) == LevelOf(ys, b, epsilon) {
        if i <= j {
          SameLevelLinked(ys, i, j, epsilon);
        } else {
          SameLevelLinked(ys, j, i, epsilon);
          LinkedBackwards(Values(ys), b, a, epsilon);
        }
      }
    }
  }

  // ---------------------------------------------------------------- counting

  ghost function ComponentsOf(v: set<real>, w: set<real>, epsilon: real): set<set<real>> {
    set a | a in w :: Component(v, a, epsilon)
  }

  ghost function LevelsOf(ys: seq<real>, w: set<real>, epsilon: real): set<nat> {
    set a | a in w && a in ys :: LevelOf(ys, a, epsilon)
  }

  lemma {:induction false} AsManyLevels(ys: seq<real>, k: nat, epsilon: real)
    requires Rising(ys) && epsilon >= 0.0 && k <= |ys|
    ensures |ComponentsOf(Values(ys), Values(ys[..k]), epsilon)| == |LevelsOf(ys, Values(ys[..k]), epsilon)|
  {
    hide ComponentsOf, LevelsOf, Component, LevelOf, Rising;
    if k == 0 {
      assert Values(ys[..0]) == {};
      NoValues(ys, epsilon);
    } else {
      AsManyLevels(ys, k - 1, epsilon);
      FirstValues(ys, k - 1);
      OneMoreValue(ys, Values(ys[..k - 1]), ys[k - 1], epsilon);
    }
  }

  lemma FirstValues(ys: seq<real>, k: nat)
    requires k < |ys|
    ensures Values(ys[..k + 1]) == Values(ys[..k]) + {ys[k]} && Values(ys[..k]) <= Values(ys)
  {
    assert ys[..k + 1] == ys[..k] + [ys[k]];
  }

  lemma NoValues(ys: seq<real>, epsilon: real)
    ensures ComponentsOf(Values(ys), {}, epsilon) == {} && LevelsOf(ys, {}, epsilon) == {}
  {
  }

  lemma OneMoreValue(ys: seq<real>, rest: set<real>, a: real, epsilon: real)
    requires Rising(ys) && epsilon >= 0.0 && rest <= Values(ys) && a in ys
    ensures ComponentsOf(Values(ys), rest + {a}, epsilon)
         == ComponentsOf(Values(ys), rest, epsilon) + {Component(Values(ys), a, epsilon)}
    ensures LevelsOf(ys, rest + {a}, epsilon) == LevelsOf(ys, rest, epsilon) + {LevelOf(ys, a, epsilon)}
    ensures Component(Values(ys), a, epsilon) in ComponentsOf(Values(ys), rest, epsilon) <==>
            LevelOf(ys, a, epsilon) in LevelsOf(ys, rest, epsilon)
  {
    hide Component, LevelOf, Rising;
    forall b | b in rest
      ensures b in ys && a in Values(ys)
      ensures Component(Values(ys), a, epsilon) == Component(Values(ys), b, epsilon) <==>
                LevelOf(ys, a, epsilon) == LevelOf(ys, b, epsilon)
    {
      SameComponent(Values(ys), a, b, epsilon);
      LinkedIffSameLevel(ys, a, b, epsilon);
    }
  }

  lemma {:induction false} LevelsHaveNoHoles(ys: seq<real>, k: nat, m: nat, epsilon: real) returns (i: nat)
    requires k < |ys| && m <= Level(ys, k, epsilon)
    ensures i <= k && Level(ys, i, epsilon) == m
  {
    if m == Level(ys, k, epsilon) {
      i := k;
    } else {
      i := LevelsHaveNoHoles(ys, k - 1, m, epsilon);
    }
  }

  lemma LevelAt(ys: seq<real>, k: nat, epsilon: real)
    requires Rising(ys) && epsilon >= 0.0 && k < |ys|
    ensures LevelOf(ys, ys[k], epsilon) == Level(ys, k, epsilon)
  {
    var i := FirstAt(ys, ys[k]);
    if i <= k {
      NearSameLevel(ys, i, k, epsilon);
    } else {
      NearSameLevel(ys, k, i, epsilon);
    }
  }

  function UpTo(n: nat): set<nat> {
    if n == 0 then {} else UpTo(n - 1) + {n - 1}
  }

  lemma {:induction false} UpToIs(n: nat)
    ensures |UpTo(n)| == n && forall m: nat :: m in UpTo(n) <==> m < n
  {
    if n > 0 {
      UpToIs(n - 1);
    }
  }

  lemma AllLevels(ys: seq<real>, epsilon: real)
    requires Rising(ys) && epsilon >= 0.0
    ensures LevelsOf(ys, Values(ys), epsilon) == UpTo(Clusters(ys, epsilon))
  {
    hide LevelOf, Rising;
    UpToIs(Clusters(ys, epsilon));
    forall m: nat ensures m in LevelsOf(ys, Values(ys), epsilon) <==> m < Clusters(ys, epsilon) {
      if m < Clusters(ys, epsilon) {
        var i := LevelsHaveNoHoles(ys, |ys| - 1, m, epsilon);
        LevelAt(ys, i, epsilon);
        assert ys[i] in Values(ys);
      }
      if m in LevelsOf(ys, Values(ys), epsilon) {
        var a :| a in Values(ys) && LevelOf(ys, a, epsilon) == m;
        var k := FirstAt(ys, a);
        LevelAt(ys, k, epsilon);
        LevelRises(ys, k, |ys| - 1, epsilon);
      }
    }
  }

  /** The clusters of the report are the connected components of the graph of stances. */
  lemma ClustersAreComponents(xs: seq<real>, epsilon: real)
    requires epsilon >= 0.0
    ensures Clusters(SortUp(xs), epsilon) == |Components(Values(xs), epsilon)|
  {
    var ys := SortUp(xs);
    SortUpSorts(xs);
    hide Level, Component, LevelOf;
    AsManyLevels(ys, |ys|, epsilon);
    assert ys[..|ys|] == ys;
    AllLevels(ys, epsilon);
    UpToIs(Clusters(ys, epsilon));
    assert Components(Values(ys), epsilon) == ComponentsOf(Values(ys), Values(ys), epsilon);
  }

  /** With a negative epsilon no two stances are joined, and each is its own cluster. */
  lemma {:induction false} NobodyAgrees(ys: seq<real>, k: nat, epsilon: real)
    requires Rising(ys) && epsilon < 0.0 && k < |ys|
    ensures Level(ys, k, epsilon) == k
  {
    if k > 0 {
      NobodyAgrees(ys, k - 1, epsilon);
    }
  }

  /** The order of the stances does not matter, for any epsilon. */
  lemma ClustersIgnoreOrder(xs: seq<real>, ys: seq<real>, epsilon: real)
    requires multiset(xs) == multiset(ys)
    ensures Clusters(SortUp(xs), epsilon) == Clusters(SortUp(ys), epsilon)
  {
    hide Components, SortUp, Values, Rising;
    SortUpSorts(xs);
    SortUpSorts(ys);
    SameBag(xs, ys);
    if epsilon >= 0.0 {
      ClustersAreComponents(xs, epsilon);
      ClustersAreComponents(ys, epsilon);
    } else if xs != [] {
      NobodyAgrees(SortUp(xs), |xs| - 1, epsilon);
      NobodyAgrees(SortUp(ys), |ys| - 1, epsilon);
    }
  }

  // ---------------------------------------------------------------- the report

  datatype Stats = Stats(n: nat, clusters: nat)

  /** The stances on one issue, in the order of the rows. */
  function StancesOn(rows: seq<Row>, issue: string): seq<real> {
    if rows == [] then []
    else
      var last := rows[|rows| - 1];
      StancesOn(rows[..|rows| - 1], issue) + if last.issue == issue then [last.stance] else []
  }

  /** They are the stances of the rows on that issue, row for row. */
  lemma {:induction false} StancesAre(rows: seq<Row>, issue: string)
    ensures StancesOn(rows, issue) == Map(Where(rows, (r: Row) => r.issue == issue), (r: Row) => r.stance)
  {
    if rows != [] {
      var front, last := rows[..|rows| - 1], rows[|rows| - 1];
      var on, stance := (r: Row) => r.issue == issue, (r: Row) => r.stance;
      assert rows == front + [last];
      StancesAre(front, issue);
      WhereSame(front, (r: Row) => r.issue == issue, on);
      assert Map(Where(front, on) + [last], stance) == Map(Where(front, on), stance) + [last.stance];
    }
  }

  method CountClusters(xs: seq<real>, epsilon: real) returns (clusters: nat)
    ensures clusters == Clusters(SortUp(xs), epsilon)
    ensures epsilon >= 0.0 ==> clusters == |Components(Values(xs), epsilon)|
  {
    var ys := SortUp(xs);
    clusters := if ys == [] then 0 else 1;
    var k := 1;
    while k < |ys|
      invariant ys != [] ==> 1 <= k <= |ys| && clusters == 1 + Level(ys, k - 1, epsilon)
      invariant ys == [] ==> clusters == 0
    {
      if ys[k] - ys[k - 1] > epsilon {
        clusters := clusters + 1;
      }
      k := k + 1;
    }
    if epsilon >= 0.0 {
      ClustersAreComponents(xs, epsilon);
    }
  }

  method GroupByIssue(rows: seq<Row>) returns (byIssue: map<string, seq<real>>)
    ensures forall issue :: issue in byIssue <==> StancesOn(rows, issue) != []
    ensures forall issue :: issue in byIssue ==> byIssue[issue] == StancesOn(rows, issue)
  {
    byIssue := map[];
    for i := 0 to |rows|
      invariant forall issue :: issue in byIssue <==> StancesOn(rows[..i], issue) != []
      invariant forall issue :: issue in byIssue ==> byIssue[issue] == StancesOn(rows[..i], issue)
    {
      var r := rows[i];
      assert rows[..i + 1][..i] == rows[..i];
      byIssue := byIssue[r.issue := (if r.issue in byIssue then byIssue[r.issue] else []) + [r.stance]];
    }
    assert rows[..|rows|] == rows;
  }

  /** Per issue that anyone has a stance on: how many stances, and how many camps. */
  method OpinionIssueStats(rows: seq<Row>, epsilon: real) returns (stats: map<string, Stats>)
    ensures forall issue :: issue in stats <==> StancesOn(rows, issue) != []
    ensures forall issue :: issue in stats ==>
              && stats[issue].n == |StancesOn(rows, issue)|
              && stats[issue].clusters == Clusters(SortUp(StancesOn(rows, issue)), epsilon)
              && (epsilon >= 0.0 ==> stats[issue].clusters == |Components(Values(StancesOn(rows, issue)), epsilon)|)
  {
    hide StancesOn, SortUp, Clusters, Components;
    var byIssue := GroupByIssue(rows);
    stats := map[];
    var left := byIssue.Keys;
    while left != {}
      invariant left <= byIssue.Keys && stats.Keys == byIssue.Keys - left
      invariant forall issue :: issue in stats ==>
                  && stats[issue] == Stats(|byIssue[issue]|, Clusters(SortUp(byIssue[issue]), epsilon))
                  && (epsilon >= 0.0 ==> stats[issue].clusters == |Components(Values(byIssue[issue]), epsilon)|)
      decreases |left|
    {
      var issue :| issue in left;
      var clusters := CountClusters(byIssue[issue], epsilon);
      stats := stats[issue := Stats(|byIssue[issue]|, clusters)];
      left := left - {issue};
    }
  }
}
