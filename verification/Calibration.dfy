/** Calibrating the civic promotion gates: which gate rejects whom, candidate thresholds taken
    from measured readings, and agreement with the promotion rule itself.

    Times are in days and familiarities are numbers, both real. */
module Calibration {
  import opened Bags

  datatype Fact = Fact(id: string, ugc: bool, ugcType: bool, anchored: real, banned: bool)

  datatype Edge = Edge(a: string, b: string, fam: real)

  datatype Snapshot = Snapshot(now: real, facts: seq<Fact>, familiarity: seq<Edge>)

  /** The three thresholds. */
  datatype Gates = Gates(days: real, peers: int, theta: real)

  // ---------------------------------------------------------------- anchored edges

  /** The familiarities of `id` with anchors, an edge counting in both directions. */
  function EdgesOf(edges: seq<Edge>, anchors: set<string>, id: string): seq<real> {
    if edges == [] then []
    else
      var e := edges[|edges| - 1];
      EdgesOf(edges[..|edges| - 1], anchors, id)
      + (if e.a == id && e.b in anchors then [e.fam] else [])
      + (if e.b == id && e.a in anchors then [e.fam] else [])
  }

  function InsertDown(ys: seq<real>, x: real): seq<real> {
    if ys == [] || ys[|ys| - 1] >= x then ys + [x] else InsertDown(ys[..|ys| - 1], x) + [ys[|ys| - 1]]
  }

  function SortDown(xs: seq<real>): seq<real> {
    if xs == [] then [] else InsertDown(SortDown(xs[..|xs| - 1]), xs[|xs| - 1])
  }

  ghost predicate Falling(ys: seq<real>) { forall i, j :: 0 <= i < j < |ys| ==> ys[i] >= ys[j] }

  ghost predicate AllFrom(ys: seq<real>, low: real) { forall i :: 0 <= i < |ys| ==> ys[i] >= low }

  lemma {:induction false} InsertDownSorts(ys: seq<real>, x: real, low: real)
    requires Falling(ys) && AllFrom(ys, low) && x >= low
    ensures Falling(InsertDown(ys, x)) && AllFrom(InsertDown(ys, x), low)
  {
    if ys != [] && ys[|ys| - 1] < x {
      InsertDownSorts(ys[..|ys| - 1], x, ys[|ys| - 1]);
    }
  }

  lemma {:induction false} InsertDownBag(ys: seq<real>, x: real)
    ensures multiset(InsertDown(ys, x)) == multiset(ys) + multiset{x} && |InsertDown(ys, x)| == |ys| + 1
  {
    if ys != [] {
      assert ys == ys[..|ys| - 1] + [ys[|ys| - 1]];
      InsertDownBag(ys[..|ys| - 1], x);
    }
  }

  lemma {:induction false} SortDownSorts(xs: seq<real>)
    ensures Falling(SortDown(xs)) && multiset(SortDown(xs)) == multiset(xs) && |SortDown(xs)| == |xs|
  {
    if xs != [] {
      hide InsertDown;
      var front, last := xs[..|xs| - 1], xs[|xs| - 1];
      assert xs == front + [last];
      SortDownSorts(front);
      var ys := SortDown(front);
      InsertDownSorts(ys, last, if ys != [] && ys[|ys| - 1] < last then ys[|ys| - 1] else last);
      InsertDownBag(ys, last);
    }
  }

  ghost predicate Collected(acc: map<string, seq<real>>, edges: seq<Edge>, ids: set<string>, anchors: set<string>) {
    acc.Keys == ids && forall id :: id in ids ==> acc[id] == EdgesOf(edges, anchors, id)
  }

  /** One end of an edge, noted if that end is asked for and the other end is an anchor. */
  function Note(
    acc: map<string, seq<real>>, id: string, other: string, fam: real, anchors: set<string>): map<string, seq<real>> {
    if id in acc && other in anchors then acc[id := acc[id] + [fam]] else acc
  }

  lemma CollectedOneMore(acc: map<string, seq<real>>, edges: seq<Edge>, e: Edge, ids: set<string>, anchors: set<string>)
    requires Collected(acc, edges, ids, anchors)
    ensures Collected(Note(Note(acc, e.a, e.b, e.fam, anchors), e.b, e.a, e.fam, anchors), edges + [e], ids, anchors)
  {
    hide EdgesOf;
    forall id | id in ids
      ensures Note(Note(acc, e.a, e.b, e.fam, anchors), e.b, e.a, e.fam, anchors)[id]
              == EdgesOf(edges + [e], anchors, id)
    {
      EdgesOneMore(edges, e, anchors, id);
    }
  }

  lemma EdgesOneMore(edges: seq<Edge>, e: Edge, anchors: set<string>, id: string)
    ensures EdgesOf(edges + [e], anchors, id)
         == EdgesOf(edges, anchors, id) + (if e.a == id && e.b in anchors then [e.fam] else [])
            + (if e.b == id && e.a in anchors then [e.fam] else [])
  {
    assert (edges + [e])[..|edges|] == edges;
  }

  /** The table of all residents' edges, filled in one pass over the edges. */
  method AnchoredEdges(edges: seq<Edge>, ids: set<string>, anchors: set<string>) returns (acc: map<string, seq<real>>)
    ensures acc.Keys == ids
    ensures forall id :: id in ids ==> acc[id] == SortDown(EdgesOf(edges, anchors, id))
  {
    acc := map id | id in ids :: [];
    for i := 0 to |edges|
      invariant Collected(acc, edges[..i], ids, anchors)
    {
      var e := edges[i];
      CollectedOneMore(acc, edges[..i], e, ids, anchors);
      assert edges[..i + 1] == edges[..i] + [e];
      hide Collected;
      acc := Note(acc, e.a, e.b, e.fam, anchors);
      acc := Note(acc, e.b, e.a, e.fam, anchors);
    }
    assert edges[..|edges|] == edges;
    acc := map id | id in acc :: SortDown(acc[id]);
  }

  // ---------------------------------------------------------------- the gates

  function Age(f: Fact, now: real): real { now - f.anchored }

  /** How many of the edges reach theta. */
  function Qualified(edges: seq<real>, theta: real): nat {
    if edges == [] then 0 else Qualified(edges[..|edges| - 1], theta) + if edges[|edges| - 1] >= theta then 1 else 0
  }

  /** What the gates are applied to. */
  datatype Data = Data(now: real, edges: map<string, seq<real>>)

  function EdgesFor(d: Data, f: Fact): seq<real> { if f.id in d.edges then d.edges[f.id] else [] }

  predicate FailsDays(f: Fact, d: Data, g: Gates) { Age(f, d.now) < g.days }

  predicate FailsPeers(f: Fact, d: Data, g: Gates) { Qualified(EdgesFor(d, f), g.theta) < g.peers }

  predicate TooFew(f: Fact, d: Data, g: Gates) { FailsPeers(f, d, g) && |EdgesFor(d, f)| < g.peers }

  /** Enough edges, but not enough of them reach theta. */
  predicate KthBelow(f: Fact, d: Data, g: Gates) { FailsPeers(f, d, g) && |EdgesFor(d, f)| >= g.peers }

  predicate Passes(f: Fact, d: Data, g: Gates) { !f.banned && !FailsDays(f, d, g) && !FailsPeers(f, d, g) }

  /** With the edges in falling order, having enough edges and still failing means exactly that
      the k-th highest is below theta. */
  lemma KthBelowMeans(f: Fact, d: Data, g: Gates)
    requires Falling(EdgesFor(d, f)) && g.peers >= 1
    ensures KthBelow(f, d, g) <==> |EdgesFor(d, f)| >= g.peers && EdgesFor(d, f)[g.peers - 1] < g.theta
  {
    var edges := EdgesFor(d, f);
    if |edges| >= g.peers {
      QualifiedIsAPrefix(edges, g.theta, g.peers - 1);
    }
  }

  lemma {:induction false} QualifiedIsAPrefix(edges: seq<real>, theta: real, i: nat)
    requires Falling(edges) && i < |edges|
    ensures edges[i] >= theta <==> Qualified(edges, theta) > i
    ensures Qualified(edges, theta) <= |edges|
  {
    var n := |edges| - 1;
    if i < n {
      QualifiedIsAPrefix(edges[..n], theta, i);
      QualifiedIsAPrefix(edges[..n], theta, n - 1);
    } else {
      QualifiedAll(edges[..n], theta);
      assert forall j :: 0 <= j < n ==> edges[j] >= edges[n];
    }
  }

  lemma {:induction false} QualifiedAll(edges: seq<real>, theta: real)
    ensures Qualified(edges, theta) <= |edges|
    ensures AllFrom(edges, theta) ==> Qualified(edges, theta) == |edges|
  {
    if edges != [] {
      QualifiedAll(edges[..|edges| - 1], theta);
    }
  }

  // ---------------------------------------------------------------- attribution

  datatype Ask =
    | Banned | Passed | DaysOnly | PeersOnly | Both
    | RejectedByDays | RejectedByPeers | HasTooFew | HasKthBelow

  predicate Is(f: Fact, d: Data, g: Gates, ask: Ask) {
    match ask
    case Banned => f.banned
    case Passed => Passes(f, d, g)
    case DaysOnly => !f.banned && FailsDays(f, d, g) && !FailsPeers(f, d, g)
    case PeersOnly => !f.banned && !FailsDays(f, d, g) && FailsPeers(f, d, g)
    case Both => !f.banned && FailsDays(f, d, g) && FailsPeers(f, d, g)
    case RejectedByDays => !f.banned && FailsDays(f, d, g)
    case RejectedByPeers => !f.banned && FailsPeers(f, d, g)
    case HasTooFew => !f.banned && TooFew(f, d, g)
    case HasKthBelow => !f.banned && KthBelow(f, d, g)
  }

  function Tally(fs: seq<Fact>, d: Data, g: Gates, ask: Ask): nat {
    if fs == [] then 0 else Tally(fs[..|fs| - 1], d, g, ask) + if Is(fs[|fs| - 1], d, g, ask) then 1 else 0
  }

  datatype Gate = DaysGate | PeersGate | ThetaGate

  datatype Attribution = Attribution(
    passed: nat, days: nat, peers: nat, banned: nat, daysOnly: nat, peersOnly: nat, both: nat,
    tooFew: nat, kthBelow: nat,
    decorative: seq<Gate>)

  /** Every resident falls into exactly one group, and each gate's rejections split by cause. */
  lemma {:induction false} AttributionPartitions(fs: seq<Fact>, d: Data, g: Gates)
    ensures Tally(fs, d, g, Banned) + Tally(fs, d, g, Passed) + Tally(fs, d, g, DaysOnly) + Tally(fs, d, g, PeersOnly)
            + Tally(fs, d, g, Both) == |fs|
    ensures Tally(fs, d, g, RejectedByDays) == Tally(fs, d, g, DaysOnly) + Tally(fs, d, g, Both)
    ensures Tally(fs, d, g, RejectedByPeers) == Tally(fs, d, g, PeersOnly) + Tally(fs, d, g, Both)
    ensures Tally(fs, d, g, RejectedByPeers) == Tally(fs, d, g, HasTooFew) + Tally(fs, d, g, HasKthBelow)
  {
    if fs != [] {
      AttributionPartitions(fs[..|fs| - 1], d, g);
      hide FailsDays, FailsPeers;
    }
  }

  lemma {:induction false} TallyZero(fs: seq<Fact>, d: Data, g: Gates, ask: Ask)
    ensures Tally(fs, d, g, ask) == 0 <==> forall f :: f in fs ==> !Is(f, d, g, ask)
  {
    if fs != [] {
      TallyZero(fs[..|fs| - 1], d, g, ask);
      assert fs == fs[..|fs| - 1] + [fs[|fs| - 1]];
      hide Is;
    }
  }

  lemma TallyOneMore(fs: seq<Fact>, i: nat, d: Data, g: Gates)
    requires i < |fs|
    ensures forall ask ::
              Tally(fs[..i + 1], d, g, ask) == Tally(fs[..i], d, g, ask) + if Is(fs[i], d, g, ask) then 1 else 0
  {
    assert fs[..i + 1][..i] == fs[..i];
  }

  /** The counters, without the verdict on the gates. */
  ghost predicate Counted(r: Attribution, fs: seq<Fact>, d: Data, g: Gates) {
    && r.passed == Tally(fs, d, g, Passed) && r.banned == Tally(fs, d, g, Banned)
    && r.daysOnly == Tally(fs, d, g, DaysOnly) && r.peersOnly == Tally(fs, d, g, PeersOnly)
       && r.both == Tally(fs, d, g, Both)
    && r.days == Tally(fs, d, g, RejectedByDays) && r.peers == Tally(fs, d, g, RejectedByPeers)
    && r.tooFew == Tally(fs, d, g, HasTooFew) && r.kthBelow == Tally(fs, d, g, HasKthBelow)
  }

  method AttributeGates(d: Data, denizens: seq<Fact>, g: Gates) returns (r: Attribution)
    ensures Counted(r, denizens, d, g)
    ensures r.peers == r.tooFew + r.kthBelow
    ensures r.banned + r.passed + r.daysOnly + r.peersOnly + r.both == |denizens|
    ensures DaysGate in r.decorative <==> r.days == 0
    ensures PeersGate in r.decorative <==> r.peers == 0
    ensures ThetaGate in r.decorative <==> r.kthBelow == 0
  {
    r := CountGates(d, denizens, g);
    AttributionPartitions(denizens, d, g);
    hide Tally;
    var decorative: seq<Gate> := if r.days == 0 then [DaysGate] else [];
    decorative := decorative + if r.peers == 0 then [PeersGate] else [];
    decorative := decorative + if r.kthBelow == 0 then [ThetaGate] else [];
    r := r.(decorative := decorative);
  }

  method CountGates(d: Data, denizens: seq<Fact>, g: Gates) returns (r: Attribution)
    ensures Counted(r, denizens, d, g)
  {
    var passed, banned, daysOnly, peersOnly, both, rejDays, tooFew, kthBelow := 0, 0, 0, 0, 0, 0, 0, 0;
    assert forall ask :: Tally(denizens[..0], d, g, ask) == 0;
    hide FailsDays, FailsPeers, Tally, EdgesFor;
    for i := 0 to |denizens|
      invariant passed == Tally(denizens[..i], d, g, Passed) && banned == Tally(denizens[..i], d, g, Banned)
      invariant daysOnly == Tally(denizens[..i], d, g, DaysOnly) && peersOnly == Tally(denizens[..i], d, g, PeersOnly)
      invariant both == Tally(denizens[..i], d, g, Both) && rejDays == Tally(denizens[..i], d, g, RejectedByDays)
      invariant tooFew == Tally(denizens[..i], d, g, HasTooFew) && kthBelow == Tally(denizens[..i], d, g, HasKthBelow)
    {
      var fact := denizens[i];
      TallyOneMore(denizens, i, d, g);
      if fact.banned {
        banned := banned + 1;
        continue;
      }
      var failsDays, failsPeers := FailsDays(fact, d, g), FailsPeers(fact, d, g);
      if failsDays {
        rejDays := rejDays + 1;
      }
      if failsPeers {
        if |EdgesFor(d, fact)| < g.peers {
          tooFew := tooFew + 1;
        } else {
          kthBelow := kthBelow + 1;
        }
      }
      if failsDays && failsPeers {
        both := both + 1;
      } else if failsDays {
        daysOnly := daysOnly + 1;
      } else if failsPeers {
        peersOnly := peersOnly + 1;
      } else {
        passed := passed + 1;
      }
    }
    assert denizens[..|denizens|] == denizens;
    AttributionPartitions(denizens, d, g);
    r := Attribution(passed, rejDays, tooFew + kthBelow, banned, daysOnly, peersOnly, both, tooFew, kthBelow, []);
  }

  // ---------------------------------------------------------------- loosening one gate

  /** The gates with one of them set to a laxer value. */
  ghost predicate Loosens(gate: Gate, g: Gates, h: Gates) {
    match gate
    case DaysGate => h == g.(days := h.days) && h.days <= g.days
    case PeersGate => h == g.(peers := h.peers) && h.peers <= g.peers
    case ThetaGate => h == g.(theta := h.theta) && h.theta <= g.theta
  }

  lemma {:induction false} QualifiedMonotone(edges: seq<real>, low: real, high: real)
    requires low <= high
    ensures Qualified(edges, high) <= Qualified(edges, low) <= |edges|
    ensures AllFrom(edges, low) ==> Qualified(edges, low) == |edges|
  {
    QualifiedAll(edges, low);
    if edges != [] {
      QualifiedMonotone(edges[..|edges| - 1], low, high);
    }
  }

  /** Loosening never shuts anyone out. */
  lemma LooseningOnlyAdmits(f: Fact, d: Data, gate: Gate, g: Gates, h: Gates)
    requires Loosens(gate, g, h) && Passes(f, d, g)
    ensures Passes(f, d, h)
  {
    if gate == ThetaGate {
      QualifiedMonotone(EdgesFor(d, f), h.theta, g.theta);
    }
  }

  /** The counter a gate is called decorative by. */
  function RejectedBy(gate: Gate): Ask {
    match gate
    case DaysGate => RejectedByDays
    case PeersGate => RejectedByPeers
    case ThetaGate => HasKthBelow
  }

  /** A gate reported as decorative: loosening it, to any value, changes nobody's outcome. */
  lemma DecorativeIsIdle(fs: seq<Fact>, d: Data, gate: Gate, g: Gates, h: Gates)
    requires Loosens(gate, g, h)
    requires Tally(fs, d, g, RejectedBy(gate)) == 0
    ensures forall f :: f in fs ==> (Passes(f, d, g) <==> Passes(f, d, h))
  {
    TallyZero(fs, d, g, RejectedBy(gate));
    forall f | f in fs ensures Passes(f, d, g) <==> Passes(f, d, h) {
      if gate == ThetaGate {
        QualifiedMonotone(EdgesFor(d, f), h.theta, g.theta);
      }
    }
  }

  /** Some lower day count admits someone new exactly when someone is kept out by days alone. */
  lemma LooserDaysHelpIff(f: Fact, d: Data, g: Gates)
    ensures (exists h :: Loosens(DaysGate, g, h) && Passes(f, d, h)) && !Passes(f, d, g) <==> Is(f, d, g, DaysOnly)
  {
    var h := g.(days := if Age(f, d.now) < g.days then Age(f, d.now) else g.days);
    assert Loosens(DaysGate, g, h);
    assert Is(f, d, g, DaysOnly) ==> Passes(f, d, h);
  }

  /** Some lower theta admits someone new exactly when peers alone keep someone out who has
      enough edges: of those the report counts under theta, only these can be helped by it. */
  lemma LooserThetaHelpsIff(f: Fact, d: Data, g: Gates)
    ensures (exists h :: Loosens(ThetaGate, g, h) && Passes(f, d, h)) && !Passes(f, d, g)
            <==> Is(f, d, g, PeersOnly) && KthBelow(f, d, g)
  {
    var edges := EdgesFor(d, f);
    if Is(f, d, g, PeersOnly) && KthBelow(f, d, g) {
      var low := Lowest(edges, g.theta);
      QualifiedAll(edges, low);
      assert Loosens(ThetaGate, g, g.(theta := low)) && Passes(f, d, g.(theta := low));
    }
    forall h | Loosens(ThetaGate, g, h) && Passes(f, d, h) && !Passes(f, d, g)
      ensures Is(f, d, g, PeersOnly) && KthBelow(f, d, g)
    {
      QualifiedMonotone(edges, h.theta, g.theta);
    }
  }

  lemma {:induction false} Lowest(edges: seq<real>, theta: real) returns (low: real)
    ensures low <= theta && AllFrom(edges, low)
  {
    if edges == [] {
      low := theta;
    } else {
      low := Lowest(edges[..|edges| - 1], theta);
      low := if edges[|edges| - 1] < low then edges[|edges| - 1] else low;
    }
  }

  /** Asking for `h.peers` peers instead admits someone new exactly when peers alone keep them
      out and that many of their edges do reach theta. */
  lemma FewerPeersHelpIff(f: Fact, d: Data, g: Gates, h: Gates)
    requires Loosens(PeersGate, g, h)
    ensures Passes(f, d, h) && !Passes(f, d, g) <==>
              Is(f, d, g, PeersOnly) && Qualified(EdgesFor(d, f), g.theta) >= h.peers
  {
  }

  // ---------------------------------------------------------------- agreement with the promotion rule

  predicate IsDenizen(f: Fact) { f.ugc && f.ugcType }

  /** The different anchors `id` is familiar enough with. */
  function QualifiedPeers(edges: seq<Edge>, anchors: set<string>, theta: real, id: string): set<string> {
    if edges == [] then {}
    else
      var e := edges[|edges| - 1];
      QualifiedPeers(edges[..|edges| - 1], anchors, theta, id)
      + (if e.fam >= theta && e.b in anchors && e.a != e.b && e.a == id then {e.b} else {})
      + (if e.fam >= theta && e.a in anchors && e.a != e.b && e.b == id then {e.a} else {})
  }

  predicate Selects(f: Fact, snap: Snapshot, anchors: set<string>, g: Gates) {
    IsDenizen(f) && !f.banned && Age(f, snap.now) >= g.days
        && |QualifiedPeers(snap.familiarity, anchors, g.theta, f.id)| >= g.peers
  }

  /** The residents the nightly rule would promote, before they are put in order of id. */
  function Selected(fs: seq<Fact>, snap: Snapshot, anchors: set<string>, g: Gates): seq<string> {
    if fs == [] then []
    else
      var last := fs[|fs| - 1];
      Selected(fs[..|fs| - 1], snap, anchors, g) + if Selects(last, snap, anchors, g) then [last.id] else []
  }

  /** The anchors other than `id` with an edge to it, from either end, that reaches theta. */
  ghost function PeersOf(edges: seq<Edge>, anchors: set<string>, theta: real, id: string): set<string> {
    set p | p in anchors && p != id && exists i :: 0 <= i < |edges| && Reaches(edges[i], theta, id, p)
  }

  ghost predicate Reaches(e: Edge, theta: real, id: string, p: string) {
    e.fam >= theta && ((e.a == id && e.b == p) || (e.a == p && e.b == id))
  }

  lemma {:induction false} PeersAre(edges: seq<Edge>, anchors: set<string>, theta: real, id: string)
    ensures QualifiedPeers(edges, anchors, theta, id) == PeersOf(edges, anchors, theta, id)
  {
    if edges != [] {
      var front, e := edges[..|edges| - 1], edges[|edges| - 1];
      PeersAre(front, anchors, theta, id);
      forall p ensures p in PeersOf(edges, anchors, theta, id)
                  <==> p in PeersOf(front, anchors, theta, id)
                       || (p in anchors && p != id && Reaches(e, theta, id, p))
      {
        hide Reaches;
        assert edges[|edges| - 1] == e && forall i :: 0 <= i < |front| ==> front[i] == edges[i];
      }
      hide PeersOf;
      assert forall p :: p in QualifiedPeers(edges, anchors, theta, id) <==> p in PeersOf(edges, anchors, theta, id);
    }
  }

  /** The nightly rule promotes the created residents that are not banned, old enough, and known
      well enough to enough different anchors. */
  lemma {:induction false} SelectedMeans(fs: seq<Fact>, snap: Snapshot, anchors: set<string>, g: Gates, id: string)
    ensures id in Selected(fs, snap, anchors, g)
       <==> exists f :: f in fs && f.id == id && f.ugc && f.ugcType && !f.banned && snap.now - f.anchored >= g.days
                 && |PeersOf(snap.familiarity, anchors, g.theta, id)| >= g.peers
  {
    if fs != [] {
      var front, last := fs[..|fs| - 1], fs[|fs| - 1];
      assert fs == front + [last];
      SelectedMeans(front, snap, anchors, g, id);
      PeersAre(snap.familiarity, anchors, g.theta, last.id);
      hide PeersOf, QualifiedPeers;
    }
  }

  /** Two edges between the same residents. */
  predicate SamePair(d: Edge, e: Edge) { (d.a == e.a && d.b == e.b) || (d.a == e.b && d.b == e.a) }

  /** No edge from a resident to itself, and none twice. */
  ghost predicate Canonical(edges: seq<Edge>) {
    && (forall i :: 0 <= i < |edges| ==> edges[i].a != edges[i].b)
    && (forall i, j :: 0 <= i < j < |edges| ==> !SamePair(edges[i], edges[j]))
  }

  lemma {:induction false} InsertQualified(ys: seq<real>, x: real, theta: real)
    ensures Qualified(InsertDown(ys, x), theta) == Qualified(ys, theta) + if x >= theta then 1 else 0
  {
    QualifiedOneMore(ys, x, theta);
    if ys != [] && ys[|ys| - 1] < x {
      InsertQualified(ys[..|ys| - 1], x, theta);
      QualifiedOneMore(InsertDown(ys[..|ys| - 1], x), ys[|ys| - 1], theta);
    }
  }

  lemma QualifiedOneMore(ys: seq<real>, x: real, theta: real)
    ensures Qualified(ys + [x], theta) == Qualified(ys, theta) + if x >= theta then 1 else 0
  {
    assert (ys + [x])[..|ys|] == ys;
  }

  lemma {:induction false} SortQualified(xs: seq<real>, theta: real)
    ensures Qualified(SortDown(xs), theta) == Qualified(xs, theta)
  {
    if xs != [] {
      SortQualified(xs[..|xs| - 1], theta);
      InsertQualified(SortDown(xs[..|xs| - 1]), xs[|xs| - 1], theta);
    }
  }

  /** The anchor at the other end of an edge that is familiar enough, from either end. */
  function PeerAt(e: Edge, anchors: set<string>, theta: real, id: string): set<string> {
    (if e.fam >= theta && e.b in anchors && e.a != e.b && e.a == id then {e.b} else {})
    + (if e.fam >= theta && e.a in anchors && e.a != e.b && e.b == id then {e.a} else {})
  }

  lemma PeersOneMore(front: seq<Edge>, e: Edge, anchors: set<string>, theta: real, id: string)
    ensures QualifiedPeers(front + [e], anchors, theta, id)
         == QualifiedPeers(front, anchors, theta, id) + PeerAt(e, anchors, theta, id)
  {
    assert (front + [e])[..|front|] == front;
  }

  lemma CountOneMore(front: seq<Edge>, e: Edge, anchors: set<string>, theta: real, id: string)
    ensures var count := Qualified(EdgesOf(front + [e], anchors, id), theta)
                         - Qualified(EdgesOf(front, anchors, id), theta);
            count >= |PeerAt(e, anchors, theta, id)| && (e.a != e.b ==> count == |PeerAt(e, anchors, theta, id)|)
  {
    var before := EdgesOf(front, anchors, id);
    var first := if e.a == id && e.b in anchors then [e.fam] else [];
    var second := if e.b == id && e.a in anchors then [e.fam] else [];
    EdgesOneMore(front, e, anchors, id);
    hide EdgesOf, Qualified;
    QualifiedAddition(before, first, e.fam, theta);
    QualifiedAddition(before + first, second, e.fam, theta);
  }

  lemma QualifiedAddition(ys: seq<real>, more: seq<real>, x: real, theta: real)
    requires more == [] || more == [x]
    ensures Qualified(ys + more, theta) == Qualified(ys, theta) + if more == [x] && x >= theta then 1 else 0
  {
    QualifiedOneMore(ys, x, theta);
    assert ys + [] == ys;
  }

  lemma {:induction false} PeersHaveEdges(
    edges: seq<Edge>, anchors: set<string>, theta: real, id: string, p: string) returns (i: nat)
    requires p in QualifiedPeers(edges, anchors, theta, id)
    ensures i < |edges| && SamePair(edges[i], Edge(id, p, 0.0))
  {
    var front := edges[..|edges| - 1];
    if p in QualifiedPeers(front, anchors, theta, id) {
      i := PeersHaveEdges(front, anchors, theta, id, p);
    } else {
      i := |edges| - 1;
    }
  }

  /** Without a second edge for a pair, the peer an edge adds is a new one. */
  lemma NewPeer(front: seq<Edge>, e: Edge, anchors: set<string>, theta: real, id: string)
    requires Canonical(front + [e])
    ensures Canonical(front) && e.a != e.b && QualifiedPeers(front, anchors, theta, id) !! PeerAt(e, anchors, theta, id)
  {
    var edges := front + [e];
    assert edges[|front|] == e;
    assert forall i :: 0 <= i < |front| ==> edges[i] == front[i] && !SamePair(edges[i], edges[|front|]);
    forall p | p in PeerAt(e, anchors, theta, id) ensures p !in QualifiedPeers(front, anchors, theta, id) {
      if p in QualifiedPeers(front, anchors, theta, id) {
        var i := PeersHaveEdges(front, anchors, theta, id, p);
      }
    }
  }

  /** Counting edges never finds fewer than counting peers, and finds as many when no pair of
      residents has two edges and none has one with itself. */
  lemma {:induction false} PeersAreEdges(edges: seq<Edge>, anchors: set<string>, theta: real, id: string)
    ensures |QualifiedPeers(edges, anchors, theta, id)| <= Qualified(EdgesOf(edges, anchors, id), theta)
    ensures Canonical(edges) ==>
              |QualifiedPeers(edges, anchors, theta, id)| == Qualified(EdgesOf(edges, anchors, id), theta)
  {
    if edges != [] {
      hide Canonical, PeerAt, EdgesOf, Qualified;
      var front, e := edges[..|edges| - 1], edges[|edges| - 1];
      assert edges == front + [e];
      PeersAreEdges(front, anchors, theta, id);
      PeersOneMore(front, e, anchors, theta, id);
      CountOneMore(front, e, anchors, theta, id);
      if Canonical(edges) {
        NewPeer(front, e, anchors, theta, id);
      }
    }
  }

  /** What the report works with: the residents not yet citizens, and the one-pass edge table. */
  function ReportData(snap: Snapshot, anchors: set<string>): Data {
    Data(snap.now, map f | f in snap.facts && IsDenizen(f) ::
         f.id := SortDown(EdgesOf(snap.familiarity, anchors, f.id)))
  }

  /** The report never counts fewer as passing than the nightly rule promotes, and on an edge
      table in canonical form it counts exactly as many. */
  lemma {:induction false} AgreesWithSelectPromotions(snap: Snapshot, anchors: set<string>, g: Gates, fs: seq<Fact>)
    requires forall f :: f in fs ==> f in snap.facts
    ensures |Selected(fs, snap, anchors, g)| <= Tally(Where(fs, IsDenizen), ReportData(snap, anchors), g, Passed)
    ensures Canonical(snap.familiarity) ==>
              |Selected(fs, snap, anchors, g)| == Tally(Where(fs, IsDenizen), ReportData(snap, anchors), g, Passed)
  {
    if fs != [] {
      var front, last := fs[..|fs| - 1], fs[|fs| - 1];
      AgreesWithSelectPromotions(snap, anchors, g, front);
      SelectsIffPasses(snap, anchors, g, last);
      hide Selects, Passes, IsDenizen, Canonical, ReportData;
    }
  }

  lemma SelectsIffPasses(snap: Snapshot, anchors: set<string>, g: Gates, f: Fact)
    requires f in snap.facts
    ensures Selects(f, snap, anchors, g) ==> IsDenizen(f) && Passes(f, ReportData(snap, anchors), g)
    ensures Canonical(snap.familiarity) && IsDenizen(f) ==>
              (Selects(f, snap, anchors, g) <==> Passes(f, ReportData(snap, anchors), g))
  {
    PeersAreEdges(snap.familiarity, anchors, g.theta, f.id);
    SortQualified(EdgesOf(snap.familiarity, anchors, f.id), g.theta);
    hide QualifiedPeers, Qualified, SortDown, EdgesOf, Canonical;
    var d := ReportData(snap, anchors);
    if IsDenizen(f) {
      assert f.id in d.edges && d.edges[f.id] == SortDown(EdgesOf(snap.familiarity, anchors, f.id));
    }
  }

  lemma TwoEdgesOnePeer(e: Edge)
    requires e.a == "r" && e.b == "a"
    ensures QualifiedPeers([e, e], {"a"}, e.fam, "r") == {"a"}
    ensures Qualified(SortDown(EdgesOf([e, e], {"a"}, "r")), e.fam) == 2
  {
    assert [e, e] == [e] + [e] && [e] == [] + [e];
    hide QualifiedPeers, EdgesOf;
    PeersOneMore([], e, {"a"}, e.fam, "r");
    PeersOneMore([e], e, {"a"}, e.fam, "r");
    EdgesOneMore([], e, {"a"}, "r");
    EdgesOneMore([e], e, {"a"}, "r");
    assert EdgesOf([e, e], {"a"}, "r") == [] + [e.fam] + [e.fam];
    SortQualified(EdgesOf([e, e], {"a"}, "r"), e.fam);
    QualifiedOneMore([], e.fam, e.fam);
    QualifiedOneMore([] + [e.fam], e.fam, e.fam);
  }

  /** Why the relation table keeps one row a pair: on a list with a pair twice, which that table
      cannot hold, the report would let someone pass whom the nightly rule turns away. */
  lemma DuplicateEdgesDisagree(now: real, fam: real) returns (snap: Snapshot, g: Gates)
    ensures !Canonical(snap.familiarity)
    ensures Selected(snap.facts, snap, {"a"}, g) == []
    ensures Tally(Where(snap.facts, IsDenizen), ReportData(snap, {"a"}), g, Passed) == 1
  {
    var f := Fact("r", true, true, now, false);
    var e := Edge("r", "a", fam);
    snap, g := Snapshot(now, [f], [e, e]), Gates(0.0, 2, fam);
    assert SamePair(snap.familiarity[0], snap.familiarity[1]);
    TwoEdgesOnePeer(e);
    var d := ReportData(snap, {"a"});
    assert f in snap.facts && f.id in d.edges;
    hide QualifiedPeers, Qualified, SortDown, EdgesOf;
    assert d.edges["r"] == SortDown(EdgesOf([e, e], {"a"}, "r"));
    assert Passes(f, d, g) && !Selects(f, snap, {"a"}, g);
    assert [f][..0] == [] && Where([f], IsDenizen) == [f];
  }
}
