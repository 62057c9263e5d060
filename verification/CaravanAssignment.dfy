/** Choosing the residents of a market round and giving each its own visitor slot.

    The search over all orders of the slots is modelled for any number of slots. */
module CaravanAssignment {
  import opened Bags
  import opened Lexicographic
  import opened CaravanPath
  import opened CaravanTimeline
  import opened CaravanRound
  import opened CaravanDemo

  /** One row of the roster. */
  datatype Candidate = Candidate(slug: string, start: Tile)

  /** The path finder: an empty path means there is no way. */
  type Finder = (Tile, Tile) -> seq<Tile>

  type Routes = map<(string, Tile), seq<Tile>>

  // ---------------------------------------------------------------- all orders of the slots

  function Without(s: seq<Tile>, i: nat): seq<Tile>
    requires i < |s|
  {
    s[..i] + s[i + 1..]
  }

  function Prefixed(t: Tile, orders: seq<seq<Tile>>): seq<seq<Tile>> {
    if orders == [] then [] else [[t] + orders[0]] + Prefixed(t, orders[1..])
  }

  /** The orders of `s` that start with one of its first `n` members, in the order in which
      the standard library lists them. */
  function OrdersFrom(s: seq<Tile>, n: nat): seq<seq<Tile>>
    requires n <= |s|
    decreases |s|, n
  {
    if n == 0 then [] else OrdersFrom(s, n - 1) + Prefixed(s[n - 1], Orders(Without(s, n - 1)))
  }

  function Orders(s: seq<Tile>): seq<seq<Tile>>
    decreases |s|, |s| + 1
  {
    if s == [] then [[]] else OrdersFrom(s, |s|)
  }

  lemma {:induction false} PrefixedMembers(t: Tile, orders: seq<seq<Tile>>, o: seq<Tile>)
    ensures o in Prefixed(t, orders) <==> o != [] && o[0] == t && o[1..] in orders
  {
    if orders != [] {
      PrefixedMembers(t, orders[1..], o);
      assert orders == [orders[0]] + orders[1..];
      assert o != [] ==> o == [o[0]] + o[1..];
      assert ([t] + orders[0])[1..] == orders[0];
    }
  }

  lemma WithoutBag(s: seq<Tile>, i: nat)
    requires i < |s|
    ensures multiset(s) == multiset{s[i]} + multiset(Without(s, i))
  {
    assert s == s[..i] + [s[i]] + s[i + 1..];
  }

  /** `o` takes the `i`-th slot first, and then the others in some order. */
  ghost predicate StartsAt(s: seq<Tile>, i: int, o: seq<Tile>) {
    0 <= i < |s| && o != [] && o[0] == s[i] && multiset(o[1..]) == multiset(Without(s, i))
  }

  lemma StartingSomewhere(s: seq<Tile>, o: seq<Tile>)
    requires s != []
    ensures multiset(o) == multiset(s) <==> exists i :: StartsAt(s, i, o)
  {
    if o != [] {
      WithoutBag(o, 0);
      assert Without(o, 0) == o[1..];
    }
    forall i | StartsAt(s, i, o) ensures multiset(o) == multiset(s) {
      WithoutBag(s, i);
    }
    if multiset(o) == multiset(s) {
      BagLength(o, s);
      assert o[0] in multiset(s);
      var i :| 0 <= i < |s| && s[i] == o[0];
      WithoutBag(s, i);
      assert multiset(o[1..]) == multiset(o) - multiset{o[0]} == multiset(Without(s, i));
      assert StartsAt(s, i, o);
    }
  }

  /** The search space is exactly the set of ways to use every slot once. */
  lemma {:induction false} OrdersAreBijections(s: seq<Tile>, o: seq<Tile>)
    ensures o in Orders(s) <==> multiset(o) == multiset(s)
    decreases |s|, |s| + 1
  {
    if s == [] {
      if multiset(o) == multiset(s) {
        BagLength(o, s);
      }
    } else {
      hide StartsAt;
      OrdersFromFirst(s, |s|, o);
      StartingSomewhere(s, o);
    }
  }

  lemma {:induction false} OrdersFromFirst(s: seq<Tile>, n: nat, o: seq<Tile>)
    requires n <= |s|
    ensures o in OrdersFrom(s, n) <==> exists i :: 0 <= i < n && StartsAt(s, i, o)
    decreases |s|, n
  {
    if n > 0 {
      OrdersFromFirst(s, n - 1, o);
      PrefixedMembers(s[n - 1], Orders(Without(s, n - 1)), o);
      if o != [] {
        OrdersAreBijections(Without(s, n - 1), o[1..]);
      }
      assert StartsAt(s, n - 1, o) <==> o in Prefixed(s[n - 1], Orders(Without(s, n - 1)));
    }
  }

  // ---------------------------------------------------------------- the best order

  predicate Feasible(cs: seq<Candidate>, o: seq<Tile>, routes: Routes) {
    |o| == |cs| && forall i :: 0 <= i < |cs| ==> (cs[i].slug, o[i]) in routes
  }

  /** The total length of the first `n` paths. */
  function Score(cs: seq<Candidate>, o: seq<Tile>, routes: Routes, n: nat): int
    requires Feasible(cs, o, routes) && n <= |cs|
  {
    if n == 0 then 0 else Score(cs, o, routes, n - 1) + |routes[(cs[n - 1].slug, o[n - 1])]|
  }

  function Cost(cs: seq<Candidate>, o: seq<Tile>, routes: Routes): int
    requires Feasible(cs, o, routes)
  {
    Score(cs, o, routes, |cs|)
  }

  /** `o` is the cheapest of the orders, and the first of the cheapest. */
  ghost predicate Best(cs: seq<Candidate>, orders: seq<seq<Tile>>, routes: Routes, o: seq<Tile>) {
    && Feasible(cs, o, routes)
    && exists k ::
         && 0 <= k < |orders| && orders[k] == o
         && (forall j :: 0 <= j < |orders| && Feasible(cs, orders[j], routes) ==>
             Cost(cs, o, routes) <= Cost(cs, orders[j], routes))
         && (forall j :: 0 <= j < k && Feasible(cs, orders[j], routes) ==>
             Cost(cs, o, routes) < Cost(cs, orders[j], routes))
  }

  /** Adds up one order's paths, giving up at the first that is missing. */
  method Try(cs: seq<Candidate>, o: seq<Tile>, routes: Routes) returns (score: Option<int>)
    requires |o| == |cs|
    ensures score.Some? <==> Feasible(cs, o, routes)
    ensures score.Some? ==> score.value == Cost(cs, o, routes)
  {
    var total := 0;
    var i := 0;
    while i < |cs|
      invariant i <= |cs| && forall j :: 0 <= j < i ==> (cs[j].slug, o[j]) in routes
      invariant Feasible(cs[..i], o[..i], routes) && total == Cost(cs[..i], o[..i], routes)
    {
      if (cs[i].slug, o[i]) !in routes {
        return None;
      }
      ScoreOneMore(cs, o, routes, i);
      total := total + |routes[(cs[i].slug, o[i])]|;
      i := i + 1;
    }
    assert cs[..|cs|] == cs && o[..|cs|] == o;
    return Some(total);
  }

  lemma ScoreOneMore(cs: seq<Candidate>, o: seq<Tile>, routes: Routes, i: nat)
    requires |o| == |cs| && i < |cs| && Feasible(cs[..i], o[..i], routes) && (cs[i].slug, o[i]) in routes
    ensures Feasible(cs[..i + 1], o[..i + 1], routes)
    ensures Cost(cs[..i + 1], o[..i + 1], routes) == Cost(cs[..i], o[..i], routes) + |routes[(cs[i].slug, o[i])]|
  {
    ScorePrefix(cs[..i + 1], o[..i + 1], routes, cs[..i], o[..i], i);
  }

  lemma {:induction false} ScorePrefix(
    cs: seq<Candidate>, o: seq<Tile>, routes: Routes, ds: seq<Candidate>, q: seq<Tile>, n: nat)
    requires Feasible(cs, o, routes) && Feasible(ds, q, routes) && n <= |cs| && n <= |ds|
    requires forall i :: 0 <= i < n ==> cs[i] == ds[i] && o[i] == q[i]
    ensures Score(cs, o, routes, n) == Score(ds, q, routes, n)
  {
    if n > 0 {
      ScorePrefix(cs, o, routes, ds, q, n - 1);
    }
  }

  method Assign(cs: seq<Candidate>, slots: seq<Tile>, routes: Routes) returns (best: Option<seq<Tile>>)
    requires |slots| == |cs|
    ensures best.None? <==> forall o :: multiset(o) == multiset(slots) ==> !Feasible(cs, o, routes)
    ensures best.Some? ==> multiset(best.value) == multiset(slots) && Best(cs, Orders(slots), routes, best.value)
    ensures best.Some? ==> forall o :: multiset(o) == multiset(slots) && Feasible(cs, o, routes) ==>
              Cost(cs, best.value, routes) <= Cost(cs, o, routes)
  {
    var orders := Orders(slots);
    best := None;
    var lowest := 0;
    for k := 0 to |orders|
      invariant best.None? ==> forall j :: 0 <= j < k ==> !Feasible(cs, orders[j], routes)
      invariant best.Some? ==> Best(cs, orders[..k], routes, best.value) && lowest == Cost(cs, best.value, routes)
    {
      var o := orders[k];
      OrdersAreBijections(slots, o);
      BagLength(o, slots);
      var score := Try(cs, o, routes);
      BestOneMore(cs, orders, routes, best, k);
      if score.Some? && (best.None? || score.value < lowest) {
        best, lowest := Some(o), score.value;
      }
    }
    assert orders[..|orders|] == orders;
    EveryBijection(cs, slots, routes, best);
  }

  lemma EveryBijection(cs: seq<Candidate>, slots: seq<Tile>, routes: Routes, best: Option<seq<Tile>>)
    requires best.None? ==> forall j :: 0 <= j < |Orders(slots)| ==> !Feasible(cs, Orders(slots)[j], routes)
    requires best.Some? ==> Best(cs, Orders(slots), routes, best.value)
    ensures best.None? <==> forall o :: multiset(o) == multiset(slots) ==> !Feasible(cs, o, routes)
    ensures best.Some? ==> multiset(best.value) == multiset(slots)
    ensures best.Some? ==> forall o :: multiset(o) == multiset(slots) && Feasible(cs, o, routes) ==>
              Cost(cs, best.value, routes) <= Cost(cs, o, routes)
  {
    var orders := Orders(slots);
    hide Feasible, Orders;
    if best.Some? {
      OrdersAreBijections(slots, best.value);
    }
    forall o | multiset(o) == multiset(slots) && Feasible(cs, o, routes)
      ensures best.Some? && Cost(cs, best.value, routes) <= Cost(cs, o, routes)
    {
      OrdersAreBijections(slots, o);
      var j :| 0 <= j < |orders| && orders[j] == o;
    }
  }

  lemma BestOneMore(cs: seq<Candidate>, orders: seq<seq<Tile>>, routes: Routes, best: Option<seq<Tile>>, k: nat)
    requires k < |orders|
    requires best.None? ==> forall j :: 0 <= j < k ==> !Feasible(cs, orders[j], routes)
    requires best.Some? ==> Best(cs, orders[..k], routes, best.value)
    ensures var o := orders[k];
            if Feasible(cs, o, routes) && (best.None? || Cost(cs, o, routes) < Cost(cs, best.value, routes))
            then Best(cs, orders[..k + 1], routes, o)
            else best.Some? ==> Best(cs, orders[..k + 1], routes, best.value)
  {
    assert forall j :: 0 <= j < k ==> orders[..k + 1][j] == orders[..k][j] == orders[j];
    assert orders[..k + 1][k] == orders[k];
  }

  // ---------------------------------------------------------------- choosing the residents

  datatype Refusal =
    | SlugsRepeated | NotFourSlugs | Unavailable | TooFewResidents | TooFewReachable | NoAssignment

  datatype Built = Refused(why: Refusal) | Built(residents: seq<Resident>)

  /** What is assumed of the path finder: a path it returns leads from start to goal. */
  ghost predicate Honest(find: Finder) {
    forall a, b :: find(a, b) != [] ==> find(a, b)[0] == a && find(a, b)[|find(a, b)| - 1] == b
  }

  function SlugOf(c: Candidate): string { c.slug }

  /** The routes of these candidates to the first `n` slots. */
  ghost predicate HasRoutes(routes: Routes, c: Candidate, find: Finder, n: nat)
    requires n <= |VISITOR_SLOTS|
  {
    forall j :: 0 <= j < n ==>
      var slot := VISITOR_SLOTS[j];
      ((c.slug, slot) in routes <==> find(c.start, slot) != [])
      && ((c.slug, slot) in routes ==> routes[(c.slug, slot)] == find(c.start, slot))
  }

  ghost predicate IsCache(routes: Routes, cs: seq<Candidate>, find: Finder) {
    forall i :: 0 <= i < |cs| ==> HasRoutes(routes, cs[i], find, |VISITOR_SLOTS|)
  }

  ghost predicate NoRoutes(routes: Routes, c: Candidate, from: nat)
    requires from <= |VISITOR_SLOTS|
  {
    forall j :: from <= j < |VISITOR_SLOTS| ==> (c.slug, VISITOR_SLOTS[j]) !in routes
  }

  lemma OtherRoutes(routes: Routes, c: Candidate, d: Candidate, find: Finder, slot: Tile, path: seq<Tile>)
    requires c.slug != d.slug
    ensures HasRoutes(routes, d, find, |VISITOR_SLOTS|) ==>
              HasRoutes(routes[(c.slug, slot) := path], d, find, |VISITOR_SLOTS|)
    ensures NoRoutes(routes, d, 0) ==> NoRoutes(routes[(c.slug, slot) := path], d, 0)
  {
  }

  lemma OneMoreRoute(routes: Routes, c: Candidate, find: Finder, k: nat)
    requires k < |VISITOR_SLOTS| && HasRoutes(routes, c, find, k) && NoRoutes(routes, c, k)
    ensures var slot := VISITOR_SLOTS[k];
            var path := find(c.start, slot);
            var more := if path != [] then routes[(c.slug, slot) := path] else routes;
            HasRoutes(more, c, find, k + 1) && NoRoutes(more, c, k + 1)
  {
    assert forall i, j :: 0 <= i < j < |VISITOR_SLOTS| ==> VISITOR_SLOTS[i] != VISITOR_SLOTS[j];
  }

  /** Finds the way from every candidate to every slot. */
  method CacheRoutes(cs: seq<Candidate>, find: Finder) returns (routes: Routes)
    requires UniqueKeys(cs, SlugOf)
    ensures IsCache(routes, cs, find)
  {
    routes := map[];
    hide HasRoutes;
    assert forall j :: 0 <= j < |cs| ==> NoRoutes(routes, cs[j], 0);
    for i := 0 to |cs|
      invariant forall j :: 0 <= j < i ==> HasRoutes(routes, cs[j], find, |VISITOR_SLOTS|)
      invariant forall j :: i <= j < |cs| ==> NoRoutes(routes, cs[j], 0)
    {
      NothingFound(routes, cs[i], find);
      for k := 0 to |VISITOR_SLOTS|
        invariant forall j :: 0 <= j < i ==> HasRoutes(routes, cs[j], find, |VISITOR_SLOTS|)
        invariant forall j :: i < j < |cs| ==> NoRoutes(routes, cs[j], 0)
        invariant HasRoutes(routes, cs[i], find, k) && NoRoutes(routes, cs[i], k)
      {
        var slot := VISITOR_SLOTS[k];
        var path := find(cs[i].start, slot);
        OneMoreRoute(routes, cs[i], find, k);
        forall j | 0 <= j < |cs| && j != i
          ensures HasRoutes(routes, cs[j], find, |VISITOR_SLOTS|) ==>
                    HasRoutes(routes[(cs[i].slug, slot) := path], cs[j], find, |VISITOR_SLOTS|)
          ensures NoRoutes(routes, cs[j], 0) ==> NoRoutes(routes[(cs[i].slug, slot) := path], cs[j], 0)
        {
          assert SlugOf(cs[i]) != SlugOf(cs[j]);
          OtherRoutes(routes, cs[i], cs[j], find, slot, path);
        }
        if path != [] {
          routes := routes[(cs[i].slug, slot) := path];
        }
      }
    }
  }

  lemma NothingFound(routes: Routes, c: Candidate, find: Finder)
    ensures HasRoutes(routes, c, find, 0)
  {
  }

  // ---------------------------------------------------------------- the nearest residents

  /** The length of the shortest way to any of the first `n` slots. */
  function Nearest(c: Candidate, routes: Routes, n: nat): Option<int>
    requires n <= |VISITOR_SLOTS|
  {
    if n == 0 then None
    else
      var rest := Nearest(c, routes, n - 1);
      if (c.slug, VISITOR_SLOTS[n - 1]) !in routes then rest
      else
        var length := |routes[(c.slug, VISITOR_SLOTS[n - 1])]|;
        if rest.Some? && rest.value <= length then rest else Some(length)
  }

  function Distance(c: Candidate, routes: Routes): Option<int> { Nearest(c, routes, |VISITOR_SLOTS|) }

  predicate Reachable(c: Candidate, routes: Routes) { Distance(c, routes).Some? }

  /** Nearer to the market, or as near and earlier by slug. */
  predicate Closer(a: Candidate, b: Candidate, routes: Routes)
    requires Reachable(a, routes) && Reachable(b, routes)
  {
    var x, y := Distance(a, routes).value, Distance(b, routes).value;
    x < y || (x == y && Precedes(a.slug, b.slug))
  }

  /** `Closer` orders any three candidates consistently. */
  lemma CloserChain(a: Candidate, b: Candidate, c: Candidate, routes: Routes)
    requires Reachable(a, routes) && Reachable(b, routes) && Reachable(c, routes)
    ensures !Closer(b, a, routes) && !Closer(c, b, routes) ==> !Closer(c, a, routes)
    ensures Closer(a, b, routes) ==> !Closer(b, a, routes)
  {
    PrecedesOneWay(a.slug, b.slug);
    PrecedesOneWay(b.slug, c.slug);
    PrecedesOneWay(a.slug, c.slug);
    if Precedes(a.slug, b.slug) && Precedes(b.slug, c.slug) {
      PrecedesChain(a.slug, b.slug, c.slug);
    }
    if Precedes(c.slug, a.slug) && Precedes(a.slug, b.slug) {
      PrecedesChain(c.slug, a.slug, b.slug);
    }
    if Precedes(b.slug, c.slug) && Precedes(c.slug, a.slug) {
      PrecedesChain(b.slug, c.slug, a.slug);
    }
  }

  ghost predicate AllReachable(cs: seq<Candidate>, routes: Routes) {
    forall i :: 0 <= i < |cs| ==> Reachable(cs[i], routes)
  }

  function InsertByDistance(cs: seq<Candidate>, c: Candidate, routes: Routes): seq<Candidate> {
    if cs != [] && Reachable(c, routes) && Reachable(cs[|cs| - 1], routes) && Closer(c, cs[|cs| - 1], routes)
    then InsertByDistance(cs[..|cs| - 1], c, routes) + [cs[|cs| - 1]]
    else cs + [c]
  }

  function ByDistance(cs: seq<Candidate>, routes: Routes): seq<Candidate> {
    if cs == [] then [] else InsertByDistance(ByDistance(cs[..|cs| - 1], routes), cs[|cs| - 1], routes)
  }

  /** No candidate is closer than one before it. */
  ghost predicate NearestFirst(cs: seq<Candidate>, routes: Routes) {
    && AllReachable(cs, routes)
    && forall i, j :: 0 <= i < j < |cs| ==> !Closer(cs[j], cs[i], routes)
  }

  /** Nothing in the list is further than the bound. */
  ghost predicate NoneFurther(cs: seq<Candidate>, bound: Candidate, routes: Routes) {
    AllReachable(cs, routes) && Reachable(bound, routes) && forall i :: 0 <= i < |cs| ==> !Closer(bound, cs[i], routes)
  }

  lemma {:induction false} InsertNoneFurther(cs: seq<Candidate>, c: Candidate, bound: Candidate, routes: Routes)
    requires NoneFurther(cs, bound, routes) && Reachable(c, routes) && !Closer(bound, c, routes)
    ensures NoneFurther(InsertByDistance(cs, c, routes), bound, routes)
  {
    hide Closer, Distance;
    if cs != [] && Closer(c, cs[|cs| - 1], routes) {
      InsertNoneFurther(cs[..|cs| - 1], c, bound, routes);
    }
  }

  lemma AppendNearest(cs: seq<Candidate>, last: Candidate, routes: Routes)
    requires NearestFirst(cs, routes) && NoneFurther(cs, last, routes)
    ensures NearestFirst(cs + [last], routes)
  {
    hide Closer, Distance;
  }

  lemma BeyondTheLast(cs: seq<Candidate>, c: Candidate, routes: Routes)
    requires NearestFirst(cs, routes) && Reachable(c, routes)
    requires cs != [] ==> !Closer(c, cs[|cs| - 1], routes)
    ensures NoneFurther(cs, c, routes)
  {
    hide Closer, Distance;
    forall i | 0 <= i < |cs| ensures !Closer(c, cs[i], routes) {
      CloserChain(cs[i], cs[|cs| - 1], c, routes);
      assert Reachable(cs[i], routes);
    }
  }

  lemma {:induction false} InsertNearestFirst(cs: seq<Candidate>, c: Candidate, routes: Routes)
    requires NearestFirst(cs, routes) && Reachable(c, routes)
    ensures NearestFirst(InsertByDistance(cs, c, routes), routes)
  {
    hide Closer, Reachable, NearestFirst, NoneFurther;
    LastReachable(cs, routes);
    if cs != [] && Closer(c, cs[|cs| - 1], routes) {
      var front, last := cs[..|cs| - 1], cs[|cs| - 1];
      assert cs == front + [last];
      FrontNearest(front, last, routes);
      InsertNearestFirst(front, c, routes);
      CloserChain(c, last, c, routes);
      InsertNoneFurther(front, c, last, routes);
      AppendNearest(InsertByDistance(front, c, routes), last, routes);
    } else {
      BeyondTheLast(cs, c, routes);
      AppendNearest(cs, c, routes);
    }
  }

  lemma LastReachable(cs: seq<Candidate>, routes: Routes)
    requires NearestFirst(cs, routes)
    ensures cs != [] ==> Reachable(cs[|cs| - 1], routes)
  {
  }

  lemma FrontNearest(front: seq<Candidate>, last: Candidate, routes: Routes)
    requires NearestFirst(front + [last], routes)
    ensures NearestFirst(front, routes) && NoneFurther(front, last, routes)
  {
    hide Closer, Distance;
    assert forall i :: 0 <= i < |front| ==> (front + [last])[i] == front[i];
    assert (front + [last])[|front|] == last;
  }

  lemma {:induction false} InsertBag(cs: seq<Candidate>, c: Candidate, routes: Routes)
    ensures multiset(InsertByDistance(cs, c, routes)) == multiset(cs) + multiset{c}
  {
    if cs != [] {
      var front, last := cs[..|cs| - 1], cs[|cs| - 1];
      assert cs == front + [last];
      InsertBag(front, c, routes);
      hide Closer, Distance;
    }
  }

  lemma {:induction false} ByDistanceSorts(cs: seq<Candidate>, routes: Routes)
    requires AllReachable(cs, routes)
    ensures NearestFirst(ByDistance(cs, routes), routes) && multiset(ByDistance(cs, routes)) == multiset(cs)
  {
    if cs != [] {
      hide Closer, Distance, InsertByDistance;
      var front, last := cs[..|cs| - 1], cs[|cs| - 1];
      assert cs == front + [last];
      ByDistanceSorts(front, routes);
      InsertNearestFirst(ByDistance(front, routes), last, routes);
      InsertBag(ByDistance(front, routes), last, routes);
    }
  }

  // ---------------------------------------------------------------- what near and cheap mean

  /** The fewest tiles to one of the market's four places, if any can be reached at all. */
  ghost predicate ShortestWay(c: Candidate, routes: Routes, length: int) {
    var places := {(114, 93), (116, 93), (114, 95), (116, 95)};
    && (exists t :: t in places && (c.slug, t) in routes && |routes[(c.slug, t)]| == length)
    && forall t :: t in places && (c.slug, t) in routes ==> length <= |routes[(c.slug, t)]|
  }

  ghost predicate ShortestOf(c: Candidate, routes: Routes, n: nat, length: int)
    requires n <= |VISITOR_SLOTS|
  {
    && (exists i :: 0 <= i < n && (c.slug, VISITOR_SLOTS[i]) in routes
          && |routes[(c.slug, VISITOR_SLOTS[i])]| == length)
    && forall i :: 0 <= i < n && (c.slug, VISITOR_SLOTS[i]) in routes ==> length <= |routes[(c.slug, VISITOR_SLOTS[i])]|
  }

  lemma {:induction false} NearestIs(c: Candidate, routes: Routes, n: nat)
    requires n <= |VISITOR_SLOTS|
    ensures Nearest(c, routes, n).Some? ==> ShortestOf(c, routes, n, Nearest(c, routes, n).value)
    ensures Nearest(c, routes, n).None? ==> forall i :: 0 <= i < n ==> (c.slug, VISITOR_SLOTS[i]) !in routes
  {
    if n > 0 {
      NearestIs(c, routes, n - 1);
    }
  }

  /** How far a candidate is from the market. */
  lemma DistanceIs(c: Candidate, routes: Routes)
    ensures forall length :: Distance(c, routes) == Some(length) <==> ShortestWay(c, routes, length)
    ensures Reachable(c, routes) <==> exists t :: t in {(114, 93), (116, 93), (114, 95), (116, 95)}
                                               && (c.slug, t) in routes
  {
    var places := {(114, 93), (116, 93), (114, 95), (116, 95)};
    assert forall i :: 0 <= i < |VISITOR_SLOTS| ==> VISITOR_SLOTS[i] in places;
    forall t | t in places ensures exists i :: 0 <= i < |VISITOR_SLOTS| && VISITOR_SLOTS[i] == t {
      assert VISITOR_SLOTS[0] == (114, 93) && VISITOR_SLOTS[1] == (116, 93);
      assert VISITOR_SLOTS[2] == (114, 95) && VISITOR_SLOTS[3] == (116, 95);
    }
    NearestIs(c, routes, |VISITOR_SLOTS|);
    hide Nearest;
  }

  lemma NearestInOrder(cs: seq<Candidate>, routes: Routes, i: nat, j: nat, m: int, n: int)
    requires NearestFirst(cs, routes) && i < j < |cs|
    requires ShortestWay(cs[i], routes, m) && ShortestWay(cs[j], routes, n)
    ensures m < n || (m == n && !Precedes(cs[j].slug, cs[i].slug))
  {
    assert !Closer(cs[j], cs[i], routes) && Reachable(cs[i], routes) && Reachable(cs[j], routes);
    hide NearestFirst, ShortestWay, Distance;
    DistanceIs(cs[i], routes);
    DistanceIs(cs[j], routes);
  }

  /** Whoever is left out is further away than each of the four, or as far and not earlier by slug. */
  lemma ChosenByDistance(cs: seq<Candidate>, routes: Routes, d: Candidate, c: Candidate, m: int, n: int)
    requires d in NearestFour(cs, routes) && c in cs && c !in NearestFour(cs, routes)
    requires ShortestWay(d, routes, m) && ShortestWay(c, routes, n)
    ensures m < n || (m == n && !Precedes(c.slug, d.slug))
  {
    hide ShortestWay, Distance;
    DistanceIs(c, routes);
    DistanceIs(d, routes);
    NearestFourAreNearest(cs, routes);
    assert NoneFurther(NearestFour(cs, routes), c, routes);
    hide NearestFour;
  }

  /** The four stand in order: the nearer first, and of two as near the one earlier by slug. */
  lemma ChosenInOrder(cs: seq<Candidate>, routes: Routes, i: nat, j: nat, m: int, n: int)
    requires i < j < |NearestFour(cs, routes)|
    requires ShortestWay(NearestFour(cs, routes)[i], routes, m) && ShortestWay(NearestFour(cs, routes)[j], routes, n)
    ensures m < n || (m == n && !Precedes(NearestFour(cs, routes)[j].slug, NearestFour(cs, routes)[i].slug))
  {
    hide Where, Closer, Reachable, ByDistance, ShortestWay;
    AbleAreReachable(cs, routes);
    ByDistanceSorts(Where(cs, ReachableBy(routes)), routes);
    NearestInOrder(NearestFour(cs, routes), routes, i, j, m, n);
  }

  /** What an assignment of the four places costs: the four ways together. */
  lemma FourWays(cs: seq<Candidate>, o: seq<Tile>, routes: Routes)
    requires Feasible(cs, o, routes) && |cs| == 4
    ensures Cost(cs, o, routes)
         == |routes[(cs[0].slug, o[0])]| + |routes[(cs[1].slug, o[1])]| + |routes[(cs[2].slug, o[2])]|
            + |routes[(cs[3].slug, o[3])]|
  {
    assert Score(cs, o, routes, 4) == Score(cs, o, routes, 3) + |routes[(cs[3].slug, o[3])]|;
    assert Score(cs, o, routes, 2) == Score(cs, o, routes, 1) + |routes[(cs[1].slug, o[1])]|;
  }

  // ---------------------------------------------------------------- the whole choice

  function ReachableBy(routes: Routes): Candidate -> bool {
    c => Reachable(c, routes)
  }

  function FirstFour(cs: seq<Candidate>): seq<Candidate> {
    if |cs| <= 4 then cs else cs[..4]
  }

  /** Without a request, the four nearest of those who can reach the market at all. */
  function NearestFour(cs: seq<Candidate>, routes: Routes): seq<Candidate> {
    FirstFour(ByDistance(Where(cs, ReachableBy(routes)), routes))
  }

  /** Those chosen can reach a slot, and nobody left out who can is closer than one of them. */
  lemma NearestFourAreNearest(cs: seq<Candidate>, routes: Routes)
    ensures var chosen := NearestFour(cs, routes);
            && multiset(chosen) <= multiset(cs) && AllReachable(chosen, routes)
            && |chosen| == (if |Where(cs, ReachableBy(routes))| < 4 then |Where(cs, ReachableBy(routes))| else 4)
            && forall c :: c in cs && Reachable(c, routes) && c !in chosen ==> NoneFurther(chosen, c, routes)
  {
    hide Where, Closer, Reachable, ByDistance, InsertByDistance, NearestFirst, NoneFurther, AllReachable;
    var able := Where(cs, ReachableBy(routes));
    var sorted, chosen := ByDistance(able, routes), NearestFour(cs, routes);
    WhereBag(cs, ReachableBy(routes));
    AbleAreReachable(cs, routes);
    ByDistanceSorts(able, routes);
    assert |sorted| == |multiset(sorted)| == |multiset(able)| == |able|;
    var k := |chosen|;
    assert sorted == chosen + sorted[k..];
    TakeNearest(chosen, sorted[k..], routes);
    forall c | c in cs && Reachable(c, routes) && c !in chosen ensures NoneFurther(chosen, c, routes) {
      WhereMember(cs, ReachableBy(routes), c);
      assert c in multiset(sorted);
    }
  }

  lemma AbleAreReachable(cs: seq<Candidate>, routes: Routes)
    ensures AllReachable(Where(cs, ReachableBy(routes)), routes)
  {
    var able := Where(cs, ReachableBy(routes));
    assert forall i :: 0 <= i < |able| ==> able[i] in able;
  }

  lemma TakeNearest(front: seq<Candidate>, back: seq<Candidate>, routes: Routes)
    requires NearestFirst(front + back, routes)
    ensures AllReachable(front, routes)
    ensures forall c :: c in back ==> NoneFurther(front, c, routes)
  {
    hide Closer, Distance;
    assert forall i :: 0 <= i < |front| ==> (front + back)[i] == front[i];
    forall c | c in back ensures NoneFurther(front, c, routes) {
      var j :| 0 <= j < |back| && back[j] == c;
      assert (front + back)[|front| + j] == c;
    }
  }

  lemma {:induction false} WhereBag<A(!new)>(s: seq<A>, p: A -> bool)
    ensures multiset(Where(s, p)) <= multiset(s)
  {
    if s != [] {
      WhereBag(s[..|s| - 1], p);
      assert s == s[..|s| - 1] + [s[|s| - 1]];
    }
  }

  /** The request names four different residents of the roster, or there is none and the roster
      has four. */
  ghost predicate GoodRequest(roster: seq<Candidate>, requested: seq<string>) {
    && NoRepeats(requested) && |requested| in {0, 4} && (requested == [] ==> |roster| >= 4)
    && forall s :: s in requested ==> exists c :: c in roster && c.slug == s
  }

  /** What is wrong with any other request; the earlier reason wins. */
  ghost predicate RequestRefused(roster: seq<Candidate>, requested: seq<string>, why: Refusal) {
    if !NoRepeats(requested) then why == SlugsRepeated
    else if requested != [] && |requested| != 4 then why == NotFourSlugs
    else if exists s :: s in requested && forall c :: c in roster ==> c.slug != s then why == Unavailable
    else why == TooFewResidents
  }

  /** Who is considered: the requested residents in the order of the request, or everyone. */
  ghost predicate IsPool(pool: seq<Candidate>, roster: seq<Candidate>, requested: seq<string>) {
    if requested == [] then pool == roster
    else |pool| == |requested| && forall i :: 0 <= i < |pool| ==> pool[i] in roster && pool[i].slug == requested[i]
  }

  function Projected(c: Candidate, slot: Tile, routes: Routes): Resident
    requires (c.slug, slot) in routes
  {
    Resident(c.slug, c.start, slot, routes[(c.slug, slot)])
  }

  method BuildProjections(roster: seq<Candidate>, requested: seq<string>, find: Finder)
    returns (r: Built, ghost chosen: seq<Candidate>, ghost routes: Routes)
    requires UniqueKeys(roster, SlugOf)
    ensures !GoodRequest(roster, requested) ==> r.Refused? && RequestRefused(roster, requested, r.why)
    ensures GoodRequest(roster, requested) && r.Refused? ==>
              r.why == if |chosen| != 4 then TooFewReachable else NoAssignment
    ensures GoodRequest(roster, requested) ==>
              exists pool :: IsPool(pool, roster, requested) && IsCache(routes, pool, find)
                             && chosen == if requested == [] then NearestFour(pool, routes) else pool
    ensures GoodRequest(roster, requested) ==>
              (r.Built? <==>
               |chosen| == 4 && exists o :: multiset(o) == multiset(VISITOR_SLOTS) && Feasible(chosen, o, routes))
    ensures r.Built? ==>
              exists o ::
                && multiset(o) == multiset(VISITOR_SLOTS) && Feasible(chosen, o, routes)
                && |r.residents| == |chosen|
                && (forall i :: 0 <= i < |chosen| ==> r.residents[i] == Projected(chosen[i], o[i], routes))
                && forall q :: multiset(q) == multiset(VISITOR_SLOTS) && Feasible(chosen, q, routes) ==>
                     Cost(chosen, o, routes) <= Cost(chosen, q, routes)
  {
    hide GoodRequest, RequestRefused, UniqueKeys, IsPool, IsCache, Feasible, Best, Orders, NearestFour;
    routes, chosen := map[], [];
    var why, pool := CheckRequest(roster, requested);
    if why.Some? {
      return Refused(why.value), chosen, routes;
    }
    var cache := CacheRoutes(pool, find);
    var candidates := if requested == [] then NearestFour(pool, cache) else pool;
    chosen, routes := candidates, cache;
    if |candidates| != 4 {
      return Refused(TooFewReachable), chosen, routes;
    }
    var best := Assign(candidates, VISITOR_SLOTS, cache);
    if best.None? {
      return Refused(NoAssignment), chosen, routes;
    }
    var residents := Place(candidates, best.value, cache);
    return Built(residents), chosen, routes;
  }

  /** Checks the request, and finds who is to be considered. */
  method CheckRequest(
    roster: seq<Candidate>, requested: seq<string>) returns (why: Option<Refusal>, pool: seq<Candidate>)
    requires UniqueKeys(roster, SlugOf)
    ensures why.None? <==> GoodRequest(roster, requested)
    ensures why.Some? ==> RequestRefused(roster, requested, why.value)
    ensures why.None? ==> IsPool(pool, roster, requested) && UniqueKeys(pool, SlugOf)
  {
    SetSize(requested);
    pool := roster;
    if |set s | s in requested| != |requested| {
      return Some(SlugsRepeated), [];
    }
    if requested != [] && |requested| != 4 {
      return Some(NotFourSlugs), [];
    }
    var bySlug := Index(roster, SlugOf);
    assert forall s :: s in bySlug <==> exists c :: c in roster && c.slug == s;
    hide UniqueKeys, Index;
    if requested != [] {
      if exists s :: s in requested && s !in bySlug {
        return Some(Unavailable), [];
      }
      pool := seq(4, i requires 0 <= i < 4 => bySlug[requested[i]]);
    }
    if |pool| < 4 {
      return Some(TooFewResidents), [];
    }
    return None, pool;
  }

  method Place(cs: seq<Candidate>, o: seq<Tile>, routes: Routes) returns (residents: seq<Resident>)
    requires Feasible(cs, o, routes)
    ensures |residents| == |cs| && forall i :: 0 <= i < |cs| ==> residents[i] == Projected(cs[i], o[i], routes)
  {
    residents := [];
    for i := 0 to |cs|
      invariant |residents| == i && forall j :: 0 <= j < i ==> residents[j] == Projected(cs[j], o[j], routes)
    {
      residents := residents + [Projected(cs[i], o[i], routes)];
    }
  }

  /** The residents chosen can play a round: four of them, each on its own slot with a way from
      home to it.  What remains is whether their paths have few enough corners. */
  lemma ChosenCanPlay(cs: seq<Candidate>, o: seq<Tile>, routes: Routes, find: Finder, residents: seq<Resident>)
    requires Feasible(cs, o, routes) && multiset(o) == multiset(VISITOR_SLOTS) && UniqueKeys(cs, SlugOf)
    requires IsCache(routes, cs, find) && Honest(find)
    requires |residents| == |cs| && forall i :: 0 <= i < |cs| ==> residents[i] == Projected(cs[i], o[i], routes)
    ensures |residents| == 4 && UniqueSlugs(residents) && OnSlots(residents)
    ensures forall r :: r in residents ==> LeadsToSlot(r)
  {
    hide UniqueKeys, OnSlots, UniqueSlugs, LeadsToSlot, Honest, IsCache;
    BagLength(o, VISITOR_SLOTS);
    SlotsUsed(o, residents);
    SlugsCarried(cs, residents);
    hide Feasible;
    forall r | r in residents ensures LeadsToSlot(r) {
      var i :| 0 <= i < |residents| && residents[i] == r;
      assert o[i] in multiset(VISITOR_SLOTS);
      CachedLeads(cs, o, routes, find, i);
    }
  }

  lemma SlugsCarried(cs: seq<Candidate>, residents: seq<Resident>)
    requires UniqueKeys(cs, SlugOf) && |residents| == |cs|
    requires forall i :: 0 <= i < |cs| ==> residents[i].slug == cs[i].slug
    ensures UniqueSlugs(residents)
  {
    forall i, j | 0 <= i < j < |residents| ensures residents[i].slug != residents[j].slug {
      assert SlugOf(cs[i]) != SlugOf(cs[j]);
    }
  }

  lemma CachedLeads(cs: seq<Candidate>, o: seq<Tile>, routes: Routes, find: Finder, i: nat)
    requires Feasible(cs, o, routes) && i < |cs| && o[i] in VISITOR_SLOTS && IsCache(routes, cs, find) && Honest(find)
    ensures LeadsToSlot(Projected(cs[i], o[i], routes))
  {
    var k :| 0 <= k < |VISITOR_SLOTS| && VISITOR_SLOTS[k] == o[i];
    assert HasRoutes(routes, cs[i], find, |VISITOR_SLOTS|);
    assert find(cs[i].start, o[i]) == routes[(cs[i].slug, o[i])];
  }

  lemma SlotsUsed(o: seq<Tile>, residents: seq<Resident>)
    requires multiset(o) == multiset(VISITOR_SLOTS) && |residents| == |o|
    requires forall i :: 0 <= i < |o| ==> residents[i].slot == o[i]
    ensures OnSlots(residents)
  {
    forall t | t in VISITOR_SLOTS ensures exists r :: r in residents && r.slot == t {
      assert t in multiset(o);
      var i :| 0 <= i < |o| && o[i] == t;
      assert residents[i] in residents;
    }
    forall r | r in residents ensures r.slot in VISITOR_SLOTS {
      var i :| 0 <= i < |residents| && residents[i] == r;
      assert o[i] in multiset(VISITOR_SLOTS);
    }
  }
}
