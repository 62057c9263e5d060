/** The bridge between the animated market and the real purchase service: it writes to six
    tables while the demo runs, and puts them back at the end.

    The stocking and purchase services are arbitrary functions of the tables, limited to the
    rows the bridge tracks.  A step that raises leaves what had been committed before it. */
module MarketBridge {
  import opened Bags

  type Tile = (int, int)

  datatype ResidentRow = ResidentRow(id: string, autonomous: bool, tile: Tile, status: string, wallet: Option<int>)

  datatype Payload = Payload(visit: Option<string>, rest: string)

  datatype ItemRow = ItemRow(
    id: string, kind: string, name: string, description: string, icon: string, price: int, payload: Payload,
    stock: Option<int>, active: bool)

  /** Timestamps are kept as whether they are set. */
  datatype VisitRow = VisitRow(
    event: string, phase: string, visible: bool, version: int, tile: Tile, stocked: bool, withdrawn: bool,
    settled: bool, departed: bool)

  datatype VisitorRow = VisitorRow(residentId: string, slug: string, bought: Option<string>)

  datatype EventRow = EventRow(title: string, active: bool)

  /** Visitors are keyed by visit and slot, which the table keeps unique. */
  datatype Tables = Tables(
    residents: map<string, ResidentRow>, treasuries: map<string, int>, items: map<string, ItemRow>,
    visits: map<string, VisitRow>, visitors: map<(string, nat), VisitorRow>, events: map<string, EventRow>)

  datatype Home = Home(id: string, tile: Tile, status: string)

  /** What the bridge remembers from before the demo. */
  datatype Snapshot = Snapshot(
    homes: map<string, Home>, balances: map<string, Option<int>>, goods: map<string, Option<ItemRow>>)

  datatype State = State(
    db: Tables, snapshot: Snapshot, madeVisits: set<string>, madeEvents: set<string>, current: Option<string>,
    slots: map<string, Tile>)

  /** A missing number reads as 0, which the bridge takes for missing. */
  datatype Frame =
    | ResidentMove(slug: string, tile: Tile, target: Option<Tile>)
    | CaravanState(visit: string, event: string, phase: string, version: int, tile: Tile)
    | OtherFrame

  const VISITOR_SLOTS: seq<Tile> := [(114, 93), (116, 93), (114, 95), (116, 95)]
  const DEMO_BALANCE := 10000
  const VISIT_PREFIX := "local-market-demo-"
  const EVENT_PREFIX := "local-market-demo-event-"
  const IMPORT_KIND := "import_good"

  // ---------------------------------------------------------------- what may differ

  ghost predicate Agree<K(!new), V(!new)>(m: map<K, V>, n: map<K, V>, k: K) {
    (k in m <==> k in n) && (k in m ==> m[k] == n[k])
  }

  /** The rows the bridge and its services may write. */
  datatype Scope = Scope(slugs: set<string>, codes: set<string>, visits: set<string>, events: set<string>)

  ghost predicate SamePerson(a: ResidentRow, b: ResidentRow) {
    a.id == b.id && a.autonomous == b.autonomous
  }

  /** Nothing outside the scope differs, and of a tracked resident only place, status and the
      wallet copy do. */
  ghost predicate Within(a: Tables, b: Tables, scope: Scope) {
    && a.residents.Keys == b.residents.Keys
    && (forall r :: r in a.residents && r !in scope.slugs ==> b.residents[r] == a.residents[r])
    && (forall r :: r in a.residents ==> SamePerson(a.residents[r], b.residents[r]))
    && (forall r :: r !in scope.slugs ==> Agree(a.treasuries, b.treasuries, r))
    && (forall c :: c !in scope.codes ==> Agree(a.items, b.items, c))
    && (forall v :: v !in scope.visits ==> Agree(a.visits, b.visits, v))
    && (forall v: string, k: nat :: v !in scope.visits ==> Agree(a.visitors, b.visitors, (v, k)))
    && (forall e :: e !in scope.events ==> Agree(a.events, b.events, e))
  }

  lemma WithinChain(a: Tables, b: Tables, c: Tables, scope: Scope)
    requires Within(a, b, scope) && Within(b, c, scope)
    ensures Within(a, c, scope)
  {
  }

  lemma WithinMore(a: Tables, b: Tables, small: Scope, large: Scope)
    requires Within(a, b, small)
    requires small.slugs <= large.slugs && small.codes <= large.codes && small.visits <= large.visits
             && small.events <= large.events
    ensures Within(a, b, large)
  {
  }

  // ---------------------------------------------------------------- the stocking and purchase services

  type Stocking = (Tables, string) -> Tables
  type Buying = (Tables, string, string) -> Tables

  datatype Config = Config(slugs: seq<string>, codes: seq<string>, stock: Stocking, buy: Buying)

  function Tracked(c: Config, visits: set<string>, events: set<string>): Scope {
    Scope((set s | s in c.slugs), (set k | k in c.codes), visits, events)
  }

  /** The services change only tracked rows and rows of the visit they serve. */
  ghost predicate WellBehaved(c: Config) {
    && (forall db, v :: Within(db, c.stock(db, v), Tracked(c, {v}, {})))
    && (forall db, s, v :: Within(db, c.buy(db, s, v), Tracked(c, {v}, {})))
  }

  // ---------------------------------------------------------------- the steps

  datatype Step = Step(state: State, raised: bool)

  function OrElse(n: int, default: int): int { if n == 0 then default else n }

  /** A new visit, refused if its rows would break a key or the one-visible-visit rule. */
  function PrepareVisit(s: State, f: Frame): Step
    requires f.CaravanState?
  {
    if !(VISIT_PREFIX <= f.visit) then Step(s, false)
    else if !(EVENT_PREFIX <= f.event) then Step(s, true)
    else if f.visit in s.db.visits then Step(s, true)
    else if f.event in s.db.events
        || exists v :: v in s.db.visits && (s.db.visits[v].event == f.event || s.db.visits[v].visible)
    then Step(s, true)
    else
      var version := OrElse(f.version, 1);
      var visit := VisitRow(f.event, "waiting", true, if version < 1 then 1 else version,
                            (OrElse(f.tile.0, 102), OrElse(f.tile.1, 127)), false, false, false, false);
      var db := s.db.(visits := s.db.visits[f.visit := visit],
                      events := s.db.events[f.event := EventRow("market", true)]);
      Step(s.(db := db, madeVisits := s.madeVisits + {f.visit}, madeEvents := s.madeEvents + {f.event},
              current := Some(f.visit), slots := map[]), false)
  }

  function SetPhase(s: State, phase: string, f: Frame): State
    requires f.CaravanState?
  {
    if s.current != Some(f.visit) || f.visit !in s.db.visits then s
    else
      var visit := s.db.visits[f.visit];
      var version := OrElse(f.version, 1);
      var updated := visit.(phase := phase, version := if visit.version < version then version else visit.version,
                            tile := (OrElse(f.tile.0, visit.tile.0), OrElse(f.tile.1, visit.tile.1)));
      s.(db := s.db.(visits := s.db.visits[f.visit := updated]))
  }

  function Placed(
    residents: map<string, ResidentRow>, slug: string, tile: Tile, status: string): map<string, ResidentRow> {
    if slug in residents then residents[slug := residents[slug].(tile := tile, status := status)] else residents
  }

  /** A resident seen at its slot or at home is put there; anywhere else is only animation. */
  function RecordMove(s: State, f: Frame): State
    requires f.ResidentMove?
  {
    if s.current.None? || f.slug !in s.snapshot.homes then s
    else
      var slots := if f.target.Some? && f.target.value in VISITOR_SLOTS
                   then s.slots[f.slug := f.target.value] else s.slots;
      var atSlot := f.slug in slots && slots[f.slug] == f.tile;
      var atHome := s.snapshot.homes[f.slug].tile == f.tile;
      if atSlot || atHome
      then s.(slots := slots, db := s.db.(residents := Placed(s.db.residents, f.slug, f.tile, "idle")))
      else s.(slots := slots)
  }

  function SlotIndex(t: Tile): nat {
    if t == VISITOR_SLOTS[0] then 0 else if t == VISITOR_SLOTS[1] then 1 else if t == VISITOR_SLOTS[2] then 2 else 3
  }

  function VisitorKey(s: State, slug: string): (string, nat)
    requires s.current.Some? && slug in s.slots
  {
    (s.current.value, SlotIndex(s.slots[slug]))
  }

  /** Seating the first `n` residents: a visitor row each, and each at its slot. */
  function Seated(s: State, c: Config, n: nat): Tables
    requires n <= |c.slugs| && s.current.Some?
             && (forall slug :: slug in c.slugs ==> slug in s.slots && slug in s.snapshot.homes)
  {
    if n == 0 then s.db
    else
      var slug, db := c.slugs[n - 1], Seated(s, c, n - 1);
      db.(visitors := db.visitors[VisitorKey(s, slug) := VisitorRow(s.snapshot.homes[slug].id, slug, None)],
          residents := Placed(db.residents, slug, s.slots[slug], "idle"))
  }

  /** The visitor rows would break a key: a slot or a resident twice in one visit. */
  predicate SeatsClash(s: State, c: Config)
    requires s.current.Some? && (forall slug :: slug in c.slugs ==> slug in s.slots && slug in s.snapshot.homes)
  {
    || (exists i, j :: 0 <= i < j < |c.slugs| &&
          (VisitorKey(s, c.slugs[i]) == VisitorKey(s, c.slugs[j])
           || s.snapshot.homes[c.slugs[i]].id == s.snapshot.homes[c.slugs[j]].id))
    || (exists k, slug :: k in s.db.visitors && k.0 == s.current.value && slug in c.slugs &&
          (k == VisitorKey(s, slug) || s.db.visitors[k].residentId == s.snapshot.homes[slug].id))
  }

  /** The first transaction of trading: seats taken and goods on the shelf. */
  function OpenTrading(s: State, c: Config): Step {
    if s.current.None? then Step(s, false)
    else if s.slots.Keys != (set slug | slug in c.slugs)
         || !(forall slug :: slug in c.slugs ==> slug in s.snapshot.homes)
    then Step(s, true)
    else if s.current.value !in s.db.visits then Step(s, false)
    else if SeatsClash(s, c) then Step(s, true)
    else
      var id := s.current.value;
      var stocked := c.stock(Seated(s, c, |c.slugs|), id);
      if id !in stocked.visits then Step(s, true)
      else
        var visit := stocked.visits[id].(phase := "trading", stocked := true, settled := true);
        Step(s.(db := stocked.(visits := stocked.visits[id := visit])), false)
  }

  /** The residents in order of their slots. */
  function BuyersAt(c: Config, slots: map<string, Tile>, k: nat): seq<string> {
    Where(c.slugs, SitsAt(slots, k))
  }

  function SitsAt(slots: map<string, Tile>, k: nat): string -> bool {
    slug => slug in slots && SlotIndex(slots[slug]) == k
  }

  function Buyers(c: Config, slots: map<string, Tile>): seq<string> {
    BuyersAt(c, slots, 0) + BuyersAt(c, slots, 1) + BuyersAt(c, slots, 2) + BuyersAt(c, slots, 3)
  }

  /** One committed purchase attempt after another. */
  function Bought(db: Tables, c: Config, buyers: seq<string>, visit: string): Tables {
    if buyers == [] then db
    else c.buy(Bought(db, c, buyers[..|buyers| - 1], visit), buyers[|buyers| - 1], visit)
  }

  /** Trading, where publishing may raise after some of the purchases. */
  function Trade(s: State, c: Config, publishFailsAfter: Option<nat>): Step {
    var seated := OpenTrading(s, c);
    if seated.raised || s.current.None? || s.current.value !in s.db.visits then seated
    else
      var buyers := Buyers(c, s.slots);
      var n := if publishFailsAfter.Some? && publishFailsAfter.value < |buyers|
          then publishFailsAfter.value + 1 else |buyers|;
      Step(seated.state.(db := Bought(seated.state.db, c, buyers[..n], s.current.value)),
           publishFailsAfter.Some? && publishFailsAfter.value < |buyers|)
  }

  predicate SoldByVisit(item: ItemRow, visit: string) { item.kind == IMPORT_KIND && item.payload.visit == Some(visit) }

  function Withdrawn(items: map<string, ItemRow>, visit: string): map<string, ItemRow> {
    map code | code in items :: if SoldByVisit(items[code], visit) then items[code].(active := false) else items[code]
  }

  /** Every remembered resident back at its place. */
  function SentHome(residents: map<string, ResidentRow>, homes: map<string, Home>): map<string, ResidentRow> {
    map r | r in residents ::
          if r in homes then residents[r].(tile := homes[r].tile, status := homes[r].status) else residents[r]
  }

  function CloseVisit(s: State, phase: string): State {
    if s.current.None? || s.current.value !in s.db.visits then s
    else
      var id := s.current.value;
      var visit := s.db.visits[id];
      var closed := visit.(phase := phase, withdrawn := true, visible := phase != "departed",
                           departed := visit.departed || phase == "departed");
      var items := if visit.withdrawn then s.db.items else Withdrawn(s.db.items, id);
      var db := s.db.(visits := s.db.visits[id := closed], items := items);
      if phase == "departed"
      then s.(db := db.(residents := SentHome(db.residents, s.snapshot.homes)), current := None, slots := map[])
      else s.(db := db)
  }

  function Handle(s: State, c: Config, f: Frame, publishFailsAfter: Option<nat>): Step {
    match f
    case ResidentMove(_, _, _) => Step(RecordMove(s, f), false)
    case OtherFrame => Step(s, false)
    case CaravanState(visit, _, phase, _, _) =>
      if !(VISIT_PREFIX <= visit) then Step(s, false)
      else if phase == "waiting" then PrepareVisit(s, f)
      else if phase == "inbound" then Step(SetPhase(s, "inbound", f), false)
      else if phase == "trading" then Trade(SetPhase(s, "trading", f), c, publishFailsAfter)
      else if phase == "outbound" || phase == "departed" then Step(CloseVisit(s, phase), false)
      else Step(s, false)
  }

  /** A run of frames, each with when publishing fails in it; the first that raises ends it. */
  function HandleAll(s: State, c: Config, fs: seq<(Frame, Option<nat>)>): Step {
    if fs == [] then Step(s, false)
    else
      var before := HandleAll(s, c, fs[..|fs| - 1]);
      if before.raised then before
      else Handle(before.state, c, fs[|fs| - 1].0, fs[|fs| - 1].1)
  }

  /** Before the demo: the residents' homes, balances and the goods are noted, and every tracked
      treasury is set to the demo balance. */
  function Started(db: Tables, c: Config): State
    requires forall s :: s in c.slugs ==> s in db.residents
  {
    var homes := map s | s in c.slugs :: Home(db.residents[s].id, db.residents[s].tile, db.residents[s].status);
    var balances := map s | s in c.slugs :: if s in db.treasuries then Some(db.treasuries[s]) else None;
    var goods := map k | k in c.codes :: if k in db.items then Some(db.items[k]) else None;
    var treasuries := map s | s in db.treasuries.Keys + (set s | s in c.slugs) ::
                        if s in c.slugs then DEMO_BALANCE else db.treasuries[s];
    State(db.(treasuries := treasuries), Snapshot(homes, balances, goods), {}, {}, None, map[])
  }

  function PutBack<V>(table: map<string, V>, saved: map<string, Option<V>>): map<string, V> {
    map k | k in (table.Keys - saved.Keys) + (set k | k in saved && saved[k].Some?) ::
      if k in saved && saved[k].Some? then saved[k].value else table[k]
  }

  function Restored(s: State): Tables {
    Tables(SentHome(s.db.residents, s.snapshot.homes), PutBack(s.db.treasuries, s.snapshot.balances),
           PutBack(s.db.items, s.snapshot.goods),
           map v | v in s.db.visits && v !in s.madeVisits :: s.db.visits[v],
           map k | k in s.db.visitors && k.0 !in s.madeVisits :: s.db.visitors[k],
           map e | e in s.db.events && e !in s.madeEvents :: s.db.events[e])
  }

  // ---------------------------------------------------------------- what every step keeps

  /** The snapshot is that of `before`. */
  ghost predicate Remembers(before: Tables, saved: Snapshot, c: Config) {
    && saved.homes.Keys == (set s | s in c.slugs) && saved.balances.Keys == (set s | s in c.slugs)
    && saved.goods.Keys == (set k | k in c.codes)
    && (forall s :: s in saved.homes ==>
          s in before.residents
          && saved.homes[s] == Home(before.residents[s].id, before.residents[s].tile, before.residents[s].status))
    && (forall s :: s in saved.balances ==>
          saved.balances[s] == if s in before.treasuries then Some(before.treasuries[s]) else None)
    && (forall k :: k in saved.goods ==> saved.goods[k] == if k in before.items then Some(before.items[k]) else None)
  }

  /** Everything that differs from before the demo is something the bridge will put back. */
  ghost predicate Tracks(before: Tables, s: State, c: Config) {
    && Within(before, s.db, Tracked(c, s.madeVisits, s.madeEvents))
    && Remembers(before, s.snapshot, c)
    && s.madeVisits !! before.visits.Keys && s.madeEvents !! before.events.Keys
    && (forall v :: v in s.madeVisits ==> VISIT_PREFIX <= v)
    && (s.current.Some? ==> s.current.value in s.madeVisits)
    && (AnyVisible(before.visits) ==> s.madeVisits == {})
  }

  ghost predicate AnyVisible(visits: map<string, VisitRow>) { exists v :: v in visits && visits[v].visible }

  /** A good outside the import list is on sale for a visit that a demo could still make. */
  ghost predicate Stranger(before: Tables, c: Config, k: string, visit: string) {
    && k in before.items && k !in c.codes && before.items[k].active && SoldByVisit(before.items[k], visit)
    && VISIT_PREFIX <= visit && visit !in before.visits
  }

  /** A demo can start, and closing it can reach such a good. */
  ghost predicate Exposed(before: Tables, c: Config) {
    !AnyVisible(before.visits) && exists k, v :: Stranger(before, c, k, v)
  }

  lemma PreparedMeansNoneVisible(before: Tables, s: State, c: Config, f: Frame)
    requires f.CaravanState? && Tracks(before, s, c) && PrepareVisit(s, f).state != s
    ensures !AnyVisible(before.visits)
  {
    if v :| v in before.visits && before.visits[v].visible {
      assert Agree(before.visits, s.db.visits, v);
    }
  }

  lemma PrepareKeeps(before: Tables, s: State, c: Config, f: Frame)
    requires f.CaravanState? && Tracks(before, s, c)
    ensures Tracks(before, PrepareVisit(s, f).state, c)
  {
    hide Remembers;
    var t := PrepareVisit(s, f).state;
    if t != s {
      PreparedMeansNoneVisible(before, s, c, f);
      WithinMore(before, s.db, Tracked(c, s.madeVisits, s.madeEvents), Tracked(c, t.madeVisits, t.madeEvents));
      assert Within(s.db, t.db, Tracked(c, t.madeVisits, t.madeEvents));
      assert f.visit !in before.visits && f.event !in before.events;
      hide Within;
      WithinChain(before, s.db, t.db, Tracked(c, t.madeVisits, t.madeEvents));
    }
  }

  /** A step that makes no visit and stays within the scope keeps the record complete. */
  lemma StillTracks(before: Tables, s: State, t: State, c: Config)
    requires Tracks(before, s, c) && Within(s.db, t.db, Tracked(c, s.madeVisits, s.madeEvents))
    requires t.snapshot == s.snapshot && t.madeVisits == s.madeVisits && t.madeEvents == s.madeEvents
    requires t.current == s.current || t.current.None?
    ensures Tracks(before, t, c)
  {
    hide Remembers, Within;
    WithinChain(before, s.db, t.db, Tracked(c, s.madeVisits, s.madeEvents));
  }

  lemma SetPhaseKeeps(before: Tables, s: State, c: Config, phase: string, f: Frame)
    requires f.CaravanState? && Tracks(before, s, c)
    ensures Tracks(before, SetPhase(s, phase, f), c)
  {
    StillTracks(before, s, SetPhase(s, phase, f), c);
  }

  lemma PlacedWithin(db: Tables, slug: string, tile: Tile, status: string, scope: Scope)
    requires slug in scope.slugs
    ensures Within(db, db.(residents := Placed(db.residents, slug, tile, status)), scope)
  {
  }

  lemma WithinItself(db: Tables, scope: Scope)
    ensures Within(db, db, scope)
  {
  }

  lemma RecordMoveKeeps(before: Tables, s: State, c: Config, f: Frame)
    requires f.ResidentMove? && Tracks(before, s, c)
    ensures Tracks(before, RecordMove(s, f), c)
  {
    hide Within, Placed;
    var scope := Tracked(c, s.madeVisits, s.madeEvents);
    WithinItself(s.db, scope);
    if f.slug in s.snapshot.homes {
      PlacedWithin(s.db, f.slug, f.tile, "idle", scope);
    }
    StillTracks(before, s, RecordMove(s, f), c);
  }

  lemma {:induction false} SeatedWithin(s: State, c: Config, n: nat, scope: Scope)
    requires n <= |c.slugs| && s.current.Some?
             && (forall slug :: slug in c.slugs ==> slug in s.slots && slug in s.snapshot.homes)
    requires s.current.value in scope.visits && scope.slugs == (set slug | slug in c.slugs)
    ensures Within(s.db, Seated(s, c, n), scope)
  {
    if n > 0 {
      SeatedWithin(s, c, n - 1, scope);
    }
  }

  lemma {:induction false} BoughtWithin(db: Tables, c: Config, buyers: seq<string>, visit: string, scope: Scope)
    requires WellBehaved(c) && visit in scope.visits && scope == Tracked(c, scope.visits, scope.events)
    ensures Within(db, Bought(db, c, buyers, visit), scope)
  {
    if buyers != [] {
      var front := Bought(db, c, buyers[..|buyers| - 1], visit);
      BoughtWithin(db, c, buyers[..|buyers| - 1], visit, scope);
      var after := c.buy(front, buyers[|buyers| - 1], visit);
      WithinMore(front, after, Tracked(c, {visit}, {}), scope);
      hide Within;
      WithinChain(db, front, after, scope);
    }
  }

  /** Seating and stocking stay within the scope. */
  lemma StockedWithin(s: State, c: Config, scope: Scope)
    requires WellBehaved(c) && s.current.Some?
             && (forall slug :: slug in c.slugs ==> slug in s.slots && slug in s.snapshot.homes)
    requires s.current.value in scope.visits && scope == Tracked(c, scope.visits, scope.events)
    ensures Within(s.db, c.stock(Seated(s, c, |c.slugs|), s.current.value), scope)
  {
    hide Within, Seated;
    var seated := Seated(s, c, |c.slugs|);
    var stocked := c.stock(seated, s.current.value);
    SeatedWithin(s, c, |c.slugs|, scope);
    WithinMore(seated, stocked, Tracked(c, {s.current.value}, {}), scope);
    WithinChain(s.db, seated, stocked, scope);
  }

  lemma OpenKeeps(before: Tables, s: State, c: Config)
    requires Tracks(before, s, c) && WellBehaved(c)
    ensures Tracks(before, OpenTrading(s, c).state, c) && OpenTrading(s, c).state.current == s.current
  {
    hide Within, Seated, SeatsClash, WellBehaved, Remembers;
    var t, scope := OpenTrading(s, c).state, Tracked(c, s.madeVisits, s.madeEvents);
    if t != s {
      StockedWithin(s, c, scope);
      var stocked := c.stock(Seated(s, c, |c.slugs|), s.current.value);
      ClosedWithin(stocked, s.current.value, t.db.visits[s.current.value], scope);
      WithinChain(s.db, stocked, t.db, scope);
      StillTracks(before, s, t, c);
    }
  }

  lemma TradeKeeps(before: Tables, s: State, c: Config, publishFailsAfter: Option<nat>)
    requires Tracks(before, s, c) && WellBehaved(c)
    ensures Tracks(before, Trade(s, c, publishFailsAfter).state, c)
  {
    hide OpenTrading, Buyers, Within, Remembers;
    OpenKeeps(before, s, c);
    var seated := OpenTrading(s, c).state;
    var t := Trade(s, c, publishFailsAfter).state;
    if t != seated {
      var buyers := Buyers(c, s.slots);
      var n := if publishFailsAfter.Some? && publishFailsAfter.value < |buyers|
          then publishFailsAfter.value + 1 else |buyers|;
      BoughtWithin(seated.db, c, buyers[..n], s.current.value, Tracked(c, seated.madeVisits, seated.madeEvents));
      StillTracks(before, seated, t, c);
    }
  }

  lemma WithdrawnAgrees(before: Tables, db: Tables, c: Config, visit: string, scope: Scope)
    requires Within(before, db, scope) && scope.codes == (set k | k in c.codes)
    requires forall k :: !Stranger(before, c, k, visit)
    requires VISIT_PREFIX <= visit && visit !in before.visits
    ensures Within(db, db.(items := Withdrawn(db.items, visit)), scope)
  {
    forall k | k !in scope.codes ensures Agree(db.items, Withdrawn(db.items, visit), k) {
      assert Agree(before.items, db.items, k) && !Stranger(before, c, k, visit);
    }
  }

  lemma SentHomeWithin(db: Tables, homes: map<string, Home>, scope: Scope)
    requires homes.Keys <= scope.slugs
    ensures Within(db, db.(residents := SentHome(db.residents, homes)), scope)
  {
  }

  lemma ClosedWithin(db: Tables, id: string, visit: VisitRow, scope: Scope)
    requires id in scope.visits
    ensures Within(db, db.(visits := db.visits[id := visit]), scope)
  {
  }

  /** Closing the current visit reaches no good the bridge does not track. */
  ghost predicate Sparing(before: Tables, s: State, c: Config) {
    s.current.Some? && s.current.value in s.db.visits && !s.db.visits[s.current.value].withdrawn ==>
      forall k :: !Stranger(before, c, k, s.current.value)
  }

  /** The frame closes a visit that such a good is on sale for. */
  ghost predicate Strands(before: Tables, s: State, c: Config, f: Frame) {
    f.CaravanState? && VISIT_PREFIX <= f.visit && f.phase in {"outbound", "departed"} && !Sparing(before, s, c)
  }

  lemma UnexposedSpares(before: Tables, s: State, c: Config)
    requires Tracks(before, s, c) && !Exposed(before, c)
    ensures Sparing(before, s, c)
  {
    hide Within, Remembers, Stranger;
  }

  lemma CloseKeeps(before: Tables, s: State, c: Config, phase: string)
    requires Tracks(before, s, c) && Sparing(before, s, c)
    ensures Tracks(before, CloseVisit(s, phase), c)
  {
    hide Within, Withdrawn, SentHome, Stranger;
    var t, scope := CloseVisit(s, phase), Tracked(c, s.madeVisits, s.madeEvents);
    WithinItself(s.db, scope);
    if s.current.Some? && s.current.value in s.db.visits {
      var id := s.current.value;
      var items := if s.db.visits[id].withdrawn then s.db.items else Withdrawn(s.db.items, id);
      var one := s.db.(items := items);
      var two := one.(visits := one.visits[id := t.db.visits[id]]);
      if !s.db.visits[id].withdrawn {
        WithdrawnAgrees(before, s.db, c, id, scope);
      }
      ClosedWithin(one, id, t.db.visits[id], scope);
      WithinChain(s.db, one, two, scope);
      SentHomeWithin(two, s.snapshot.homes, scope);
      WithinChain(s.db, two, two.(residents := SentHome(two.residents, s.snapshot.homes)), scope);
    }
    StillTracks(before, s, t, c);
  }

  lemma HandleKeeps(before: Tables, s: State, c: Config, f: Frame, publishFailsAfter: Option<nat>)
    requires Tracks(before, s, c) && WellBehaved(c) && !Strands(before, s, c, f)
    ensures Tracks(before, Handle(s, c, f, publishFailsAfter).state, c)
  {
    hide Tracks, Sparing, WellBehaved, PrepareVisit, SetPhase, Trade, CloseVisit, RecordMove;
    match f
    case ResidentMove(_, _, _) => RecordMoveKeeps(before, s, c, f);
    case OtherFrame =>
    case CaravanState(_, _, phase, _, _) =>
      PrepareKeeps(before, s, c, f);
      SetPhaseKeeps(before, s, c, "inbound", f);
      SetPhaseKeeps(before, s, c, "trading", f);
      TradeKeeps(before, SetPhase(s, "trading", f), c, publishFailsAfter);
      if VISIT_PREFIX <= f.visit && phase in {"outbound", "departed"} {
        CloseKeeps(before, s, c, phase);
      }
  }

  lemma {:induction false} RunKeeps(before: Tables, s: State, c: Config, fs: seq<(Frame, Option<nat>)>)
    requires Tracks(before, s, c) && WellBehaved(c) && !Exposed(before, c)
    ensures Tracks(before, HandleAll(s, c, fs).state, c)
  {
    hide Tracks, Exposed, WellBehaved, Handle;
    if fs != [] {
      RunKeeps(before, s, c, fs[..|fs| - 1]);
      UnexposedSpares(before, HandleAll(s, c, fs[..|fs| - 1]).state, c);
      HandleKeeps(before, HandleAll(s, c, fs[..|fs| - 1]).state, c, fs[|fs| - 1].0, fs[|fs| - 1].1);
    }
  }

  // ---------------------------------------------------------------- putting everything back

  /** The wallet copies in the residents' metadata, which trading writes and nothing restores. */
  function WithWallets(before: map<string, ResidentRow>, wallets: map<string, ResidentRow>): map<string, ResidentRow>
    requires before.Keys <= wallets.Keys
  {
    map r | r in before :: before[r].(wallet := wallets[r].wallet)
  }

  lemma StartTracks(before: Tables, c: Config)
    requires forall s :: s in c.slugs ==> s in before.residents
    ensures Tracks(before, Started(before, c), c)
  {
  }

  ghost predicate VisitorsHaveVisits(db: Tables) { forall k :: k in db.visitors ==> k.0 in db.visits }

  /** Restoring puts all six tables back, but for the wallet copies of the tracked residents. */
  lemma RestoreUndoes(before: Tables, s: State, c: Config)
    requires Tracks(before, s, c) && VisitorsHaveVisits(before)
    ensures before.residents.Keys == s.db.residents.Keys
    ensures Restored(s) == before.(residents := WithWallets(before.residents, s.db.residents))
  {
    var after := Restored(s);
    TablePutBack(before.treasuries, s.db.treasuries, s.snapshot.balances);
    TablePutBack(before.items, s.db.items, s.snapshot.goods);
    RowsUndone(before, s, c);
    hide Within, Remembers, SentHome, PutBack, WithWallets;
  }

  lemma TablePutBack<V(!new)>(before: map<string, V>, after: map<string, V>, saved: map<string, Option<V>>)
    requires forall k :: k in saved ==> saved[k] == if k in before then Some(before[k]) else None
    requires forall k :: k !in saved ==> Agree(before, after, k)
    ensures PutBack(after, saved) == before
  {
  }

  lemma RowsUndone(before: Tables, s: State, c: Config)
    requires Tracks(before, s, c) && VisitorsHaveVisits(before)
    ensures (map v | v in s.db.visits && v !in s.madeVisits :: s.db.visits[v]) == before.visits
    ensures (map k | k in s.db.visitors && k.0 !in s.madeVisits :: s.db.visitors[k]) == before.visitors
    ensures (map e | e in s.db.events && e !in s.madeEvents :: s.db.events[e]) == before.events
  {
  }

  /** Whatever frames arrive, whatever the services do within their rows, and wherever a step
      raises: what is left afterwards is the database as it was, with the tracked residents'
      wallet copies as trading left them. */
  lemma DemoLeavesOnlyWallets(before: Tables, c: Config, fs: seq<(Frame, Option<nat>)>)
    requires WellBehaved(c) && !Exposed(before, c) && VisitorsHaveVisits(before)
    requires forall s :: s in c.slugs ==> s in before.residents
    ensures var last := HandleAll(Started(before, c), c, fs).state;
            && before.residents.Keys == last.db.residents.Keys
            && Restored(last) == before.(residents := WithWallets(before.residents, last.db.residents))
            && (Restored(last) == before <==>
                forall r :: r in before.residents ==> last.db.residents[r].wallet == before.residents[r].wallet)
            && (forall r :: r in before.residents && r !in c.slugs ==> last.db.residents[r] == before.residents[r])
  {
    hide HandleAll, Started, WellBehaved, Exposed, VisitorsHaveVisits, Restored, WithWallets, Tracks;
    StartTracks(before, c);
    var last := HandleAll(Started(before, c), c, fs).state;
    RunKeeps(before, Started(before, c), c, fs);
    RestoreUndoes(before, last, c);
    WalletsTell(before.residents, last.db.residents);
    OthersUntouched(before, last, c);
  }

  lemma WalletsTell(before: map<string, ResidentRow>, wallets: map<string, ResidentRow>)
    requires before.Keys == wallets.Keys
    ensures WithWallets(before, wallets) == before <==>
              forall r :: r in before ==> wallets[r].wallet == before[r].wallet
  {
    var after := WithWallets(before, wallets);
    if r :| r in before && wallets[r].wallet != before[r].wallet {
      assert after[r] != before[r];
    }
  }

  lemma OthersUntouched(before: Tables, s: State, c: Config)
    requires Tracks(before, s, c)
    ensures forall r :: r in before.residents && r !in c.slugs ==>
              r in s.db.residents && s.db.residents[r] == before.residents[r]
  {
  }

  /** Closing a visit writes to goods the bridge does not track exactly when one of them is on
      sale for that visit. */
  lemma CloseReachesStrangersIff(s: State, c: Config, phase: string)
    requires s.current.Some? && s.current.value in s.db.visits && !s.db.visits[s.current.value].withdrawn
    ensures (exists k :: k !in c.codes && !Agree(s.db.items, CloseVisit(s, phase).db.items, k)) <==>
            (exists k ::
               k in s.db.items && k !in c.codes && s.db.items[k].active && SoldByVisit(s.db.items[k], s.current.value))
  {
    var id := s.current.value;
    forall k | k in s.db.items && k !in c.codes && s.db.items[k].active && SoldByVisit(s.db.items[k], id)
      ensures !Agree(s.db.items, CloseVisit(s, phase).db.items, k)
    {
    }
  }

  /** And such a good stays off sale after everything else has been put back. */
  lemma StrangerStaysWithdrawn(s: State, c: Config, phase: string, k: string)
    requires s.current.Some? && s.current.value in s.db.visits && !s.db.visits[s.current.value].withdrawn
    requires s.snapshot.goods.Keys == (set code | code in c.codes)
    requires k in s.db.items && k !in c.codes && s.db.items[k].active && SoldByVisit(s.db.items[k], s.current.value)
    ensures k in Restored(CloseVisit(s, phase)).items && !Restored(CloseVisit(s, phase)).items[k].active
  {
  }

  // ---------------------------------------------------------------- the bridge

  lemma NothingBought(db: Tables, c: Config, buyers: seq<string>, visit: string)
    ensures Bought(db, c, buyers[..0], visit) == db && buyers[..|buyers|] == buyers
  {
  }

  lemma OneMoreBought(db: Tables, c: Config, buyers: seq<string>, n: nat, visit: string)
    requires n < |buyers|
    ensures Bought(db, c, buyers[..n + 1], visit) == c.buy(Bought(db, c, buyers[..n], visit), buyers[n], visit)
  {
    assert buyers[..n + 1][..n] == buyers[..n];
  }

  /** The residents in `done` have been noted, and their treasuries set to the demo balance. */
  ghost predicate Noted(
    db: Tables, homes: map<string, Home>, balances: map<string, Option<int>>, treasuries: map<string, int>,
    done: set<string>)
  {
    && homes.Keys == done && balances.Keys == done && treasuries.Keys == db.treasuries.Keys + done
    && (forall s :: s in done ==>
          s in db.residents && homes[s] == Home(db.residents[s].id, db.residents[s].tile, db.residents[s].status))
    && (forall s :: s in done ==> balances[s] == if s in db.treasuries then Some(db.treasuries[s]) else None)
    && (forall s :: s in treasuries ==> treasuries[s] == if s in done then DEMO_BALANCE else db.treasuries[s])
  }

  lemma NotedOneMore(
    db: Tables, homes: map<string, Home>, balances: map<string, Option<int>>, treasuries: map<string, int>,
    done: set<string>, s: string)
    requires Noted(db, homes, balances, treasuries, done) && s in db.residents && s !in done
    ensures var row := db.residents[s];
            Noted(db, homes[s := Home(row.id, row.tile, row.status)],
                  balances[s := if s in treasuries then Some(treasuries[s]) else None],
                  treasuries[s := DEMO_BALANCE], done + {s})
  {
  }

  lemma NotedIsStarted(
    db: Tables, c: Config, homes: map<string, Home>, balances: map<string, Option<int>>, treasuries: map<string, int>)
    requires Noted(db, homes, balances, treasuries, set s | s in c.slugs)
    requires forall s :: s in c.slugs ==> s in db.residents
    ensures var started := Started(db, c);
            homes == started.snapshot.homes && balances == started.snapshot.balances
                && treasuries == started.db.treasuries
  {
  }

  class AuthoritativeMarketBridge {
    const config: Config
    var db: Tables
    var homes: map<string, Home>
    var balances: map<string, Option<int>>
    var goods: map<string, Option<ItemRow>>
    var madeVisits: set<string>
    var madeEvents: set<string>
    var current: Option<string>
    var slots: map<string, Tile>

    constructor (config: Config, db: Tables)
      ensures this.config == config && Now() == State(db, Snapshot(map[], map[], map[]), {}, {}, None, map[])
    {
      this.config, this.db := config, db;
      homes, balances, goods := map[], map[], map[];
      madeVisits, madeEvents, current, slots := {}, {}, None, map[];
    }

    ghost function Now(): State
      reads this
    {
      State(db, Snapshot(homes, balances, goods), madeVisits, madeEvents, current, slots)
    }

    /** Notes homes and balances, and makes ready the demo balances. */
    method NoteResidents() returns (raised: bool, treasuries: map<string, int>)
      requires homes == map[] && balances == map[]
      requires forall s :: s in config.slugs ==> s in db.residents
      requires forall i, j :: 0 <= i < j < |config.slugs| ==> config.slugs[i] != config.slugs[j]
      modifies this`homes, this`balances
      ensures raised <==> exists s :: s in config.slugs && !db.residents[s].autonomous
      ensures !raised ==> Noted(db, homes, balances, treasuries, set s | s in config.slugs)
    {
      treasuries := db.treasuries;
      ghost var done: set<string> := {};
      for i := 0 to |config.slugs|
        invariant forall j :: 0 <= j < i ==> db.residents[config.slugs[j]].autonomous
        invariant forall s :: s in done <==> s in config.slugs[..i]
        invariant Noted(db, homes, balances, treasuries, done)
      {
        var slug := config.slugs[i];
        var row := db.residents[slug];
        if !row.autonomous {
          return true, map[];
        }
        assert config.slugs[..i + 1] == config.slugs[..i] + [slug];
        assert slug !in config.slugs[..i];
        NotedOneMore(db, homes, balances, treasuries, done, slug);
        homes := homes[slug := Home(row.id, row.tile, row.status)];
        balances := balances[slug := if slug in treasuries then Some(treasuries[slug]) else None];
        treasuries := treasuries[slug := DEMO_BALANCE];
        done := done + {slug};
      }
      assert config.slugs[..|config.slugs|] == config.slugs;
      assert done == set s | s in config.slugs;
      return false, treasuries;
    }

    method NoteGoods()
      requires goods == map[]
      modifies this`goods
      ensures goods == map k | k in config.codes :: if k in db.items then Some(db.items[k]) else None
    {
      for i := 0 to |config.codes|
        invariant goods == map k | k in config.codes[..i] :: if k in db.items then Some(db.items[k]) else None
      {
        var code := config.codes[i];
        assert config.codes[..i + 1] == config.codes[..i] + [code];
        goods := goods[code := if code in db.items then Some(db.items[code]) else None];
      }
      assert config.codes[..|config.codes|] == config.codes;
    }

    /** Notes what the demo will change and sets the demo balances, in one transaction. */
    method Initialize() returns (raised: bool)
      requires Now() == State(db, Snapshot(map[], map[], map[]), {}, {}, None, map[])
      requires forall i, j :: 0 <= i < j < |config.slugs| ==> config.slugs[i] != config.slugs[j]
      modifies this
      ensures raised <==> exists s :: s in config.slugs && (s !in old(db).residents || !old(db).residents[s].autonomous)
      ensures if raised then db == old(db) else Now() == Started(old(db), config)
    {
      if exists s :: s in config.slugs && s !in db.residents {
        return true;
      }
      var treasuries;
      raised, treasuries := NoteResidents();
      if raised {
        return;
      }
      NotedIsStarted(db, config, homes, balances, treasuries);
      NoteGoods();
      db := db.(treasuries := treasuries);
    }

    method Prepare(f: Frame) returns (raised: bool)
      requires f.CaravanState?
      modifies this`db, this`madeVisits, this`madeEvents, this`current, this`slots
      ensures Step(Now(), raised) == PrepareVisit(old(Now()), f)
    {
      if !(VISIT_PREFIX <= f.visit) {
        return false;
      }
      if !(EVENT_PREFIX <= f.event) || f.visit in db.visits {
        return true;
      }
      if f.event in db.events || exists v :: v in db.visits && (db.visits[v].event == f.event || db.visits[v].visible) {
        return true;
      }
      var version := OrElse(f.version, 1);
      var visit := VisitRow(f.event, "waiting", true, if version < 1 then 1 else version,
                            (OrElse(f.tile.0, 102), OrElse(f.tile.1, 127)), false, false, false, false);
      db := db.(visits := db.visits[f.visit := visit], events := db.events[f.event := EventRow("market", true)]);
      madeVisits, madeEvents := madeVisits + {f.visit}, madeEvents + {f.event};
      current, slots := Some(f.visit), map[];
      return false;
    }

    method PhaseTo(phase: string, f: Frame)
      requires f.CaravanState?
      modifies this`db
      ensures Now() == SetPhase(old(Now()), phase, f)
    {
      if current != Some(f.visit) || f.visit !in db.visits {
        return;
      }
      var visit := db.visits[f.visit];
      var version := OrElse(f.version, 1);
      visit := visit.(phase := phase, tile := (OrElse(f.tile.0, visit.tile.0), OrElse(f.tile.1, visit.tile.1)));
      if visit.version < version {
        visit := visit.(version := version);
      }
      db := db.(visits := db.visits[f.visit := visit]);
    }

    method RecordResidentMove(f: Frame)
      requires f.ResidentMove?
      modifies this`db, this`slots
      ensures Now() == RecordMove(old(Now()), f)
    {
      if current.None? || f.slug !in homes {
        return;
      }
      if f.target.Some? && f.target.value in VISITOR_SLOTS {
        slots := slots[f.slug := f.target.value];
      }
      if (f.slug in slots && slots[f.slug] == f.tile) || homes[f.slug].tile == f.tile {
        db := db.(residents := Placed(db.residents, f.slug, f.tile, "idle"));
      }
    }

    /** Takes the seats and stocks the goods, in one transaction. */
    method SeatAndStock() returns (raised: bool)
      requires current.Some?
      modifies this`db
      ensures Step(Now(), raised) == OpenTrading(old(Now()), config)
    {
      hide SeatsClash, Seated;
      if slots.Keys != (set slug | slug in config.slugs) || exists slug :: slug in config.slugs && slug !in homes {
        return true;
      }
      if current.value !in db.visits {
        return false;
      }
      var clash := SeatsTaken();
      if clash {
        return true;
      }
      var id, tables := current.value, db;
      tables := SeatAll();
      tables := config.stock(tables, id);
      if id !in tables.visits {
        return true;
      }
      var visit := tables.visits[id].(phase := "trading", stocked := true, settled := true);
      db := tables.(visits := tables.visits[id := visit]);
      return false;
    }

    method SeatAll() returns (tables: Tables)
      requires current.Some? && (forall slug :: slug in config.slugs ==> slug in slots && slug in homes)
      ensures tables == Seated(Now(), config, |config.slugs|)
    {
      hide Placed;
      tables := db;
      for i := 0 to |config.slugs|
        invariant tables == Seated(Now(), config, i)
      {
        var slug := config.slugs[i];
        var key := (current.value, SlotIndex(slots[slug]));
        tables := tables.(visitors := tables.visitors[key := VisitorRow(homes[slug].id, slug, None)],
                          residents := Placed(tables.residents, slug, slots[slug], "idle"));
      }
    }

    /** The new visitor rows would break a key of their table. */
    method SeatsTaken() returns (clash: bool)
      requires current.Some? && (forall slug :: slug in config.slugs ==> slug in slots && slug in homes)
      ensures clash == SeatsClash(Now(), config)
    {
      var id := current.value;
      clash := (exists i, j :: 0 <= i < j < |config.slugs| &&
                  (SlotIndex(slots[config.slugs[i]]) == SlotIndex(slots[config.slugs[j]])
                   || homes[config.slugs[i]].id == homes[config.slugs[j]].id))
            || (exists k, slug :: k in db.visitors && k.0 == id && slug in config.slugs &&
                  (k.1 == SlotIndex(slots[slug]) || db.visitors[k].residentId == homes[slug].id));
    }

    /** Seats the residents, stocks the goods, and lets each resident buy in order of the slots;
        every purchase is committed before it is published. */
    method TradeAndPublish(publishFailsAfter: Option<nat>) returns (raised: bool)
      modifies this`db
      ensures Step(Now(), raised) == Trade(old(Now()), config, publishFailsAfter)
    {
      hide SeatsClash, Seated, Bought, Buyers;
      if current.None? {
        return false;
      }
      var known := current.value in db.visits;
      raised := SeatAndStock();
      if raised || !known {
        return;
      }
      var visit, buyers := current.value, Buyers(config, slots);
      ghost var opening := db;
      NothingBought(opening, config, buyers, visit);
      var n := 0;
      while n < |buyers|
        invariant n <= |buyers| && db == Bought(opening, config, buyers[..n], visit)
        invariant publishFailsAfter.Some? ==> n <= publishFailsAfter.value
      {
        OneMoreBought(opening, config, buyers, n, visit);
        db := config.buy(db, buyers[n], visit);
        n := n + 1;
        if publishFailsAfter.Some? && publishFailsAfter.value == n - 1 {
          return true;
        }
      }
      return false;
    }

    method Close(phase: string)
      modifies this`db, this`current, this`slots
      ensures Now() == CloseVisit(old(Now()), phase)
    {
      if current.None? || current.value !in db.visits {
        return;
      }
      var id, visit := current.value, db.visits[current.value];
      if !visit.withdrawn {
        db := db.(items := Withdrawn(db.items, id));
        visit := visit.(withdrawn := true);
      }
      visit := visit.(phase := phase, visible := phase != "departed",
                      departed := visit.departed || phase == "departed");
      db := db.(visits := db.visits[id := visit]);
      if phase == "departed" {
        db := db.(residents := SentHome(db.residents, homes));
        current, slots := None, map[];
      }
    }

    /** One frame.  When a step raises, the frames end and only the clean-up follows. */
    method HandleFrame(f: Frame, publishFailsAfter: Option<nat>) returns (raised: bool)
      modifies this
      ensures Step(Now(), raised) == Handle(old(Now()), config, f, publishFailsAfter)
    {
      hide PrepareVisit, SetPhase, RecordMove, Trade, CloseVisit;
      raised := false;
      if f.ResidentMove? {
        RecordResidentMove(f);
      } else if f.CaravanState? && VISIT_PREFIX <= f.visit {
        if f.phase == "waiting" {
          raised := Prepare(f);
        } else if f.phase == "inbound" {
          PhaseTo("inbound", f);
        } else if f.phase == "trading" {
          PhaseTo("trading", f);
          raised := TradeAndPublish(publishFailsAfter);
        } else if f.phase == "outbound" || f.phase == "departed" {
          Close(f.phase);
        }
      }
    }

    method Restore()
      modifies this`db
      ensures db == Restored(old(Now()))
    {
      var residents := db.residents;
      var left := homes.Keys;
      while left != {}
        invariant left <= homes.Keys
        invariant residents == map r | r in db.residents ::
                    if r in homes && r !in left then db.residents[r].(tile := homes[r].tile, status := homes[r].status)
                    else db.residents[r]
        decreases |left|
      {
        var slug :| slug in left;
        residents := Placed(residents, slug, homes[slug].tile, homes[slug].status);
        left := left - {slug};
      }
      db := Tables(residents, PutBack(db.treasuries, balances), PutBack(db.items, goods),
                   map v | v in db.visits && v !in madeVisits :: db.visits[v],
                   map k | k in db.visitors && k.0 !in madeVisits :: db.visitors[k],
                   map e | e in db.events && e !in madeEvents :: db.events[e]);
    }
  }
}
