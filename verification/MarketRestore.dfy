/** What a whole demo of the market bridge leaves behind: exactly when restoring the tables is
    complete, over all services and over all frames. */
module MarketRestore {
  import opened Bags
  import opened MarketBridge

  /** Frames, each with when publishing a purchase fails in it. */
  type Frames = seq<(Frame, Option<nat>)>

  ghost predicate Complete(before: Tables, c: Config, fs: Frames)
    requires forall s :: s in c.slugs ==> s in before.residents
  {
    Restored(HandleAll(Started(before, c), c, fs).state) == before
  }

  // ---------------------------------------------------------------- wallet copies

  /** Wallet copies stay, or become what `to` says. */
  ghost predicate WalletsOnly(a: Tables, b: Tables, to: map<string, int>) {
    && a.residents.Keys == b.residents.Keys
    && forall r :: r in a.residents ==>
         b.residents[r].wallet == a.residents[r].wallet || (r in to && b.residents[r].wallet == Some(to[r]))
  }

  ghost predicate WritesWallets(c: Config, to: map<string, int>) {
    && (forall db, v :: WalletsOnly(db, c.stock(db, v), to))
    && (forall db, s, v :: WalletsOnly(db, c.buy(db, s, v), to))
  }

  ghost predicate KeepsWallets(c: Config) { WritesWallets(c, map[]) }

  lemma WalletsChain(a: Tables, b: Tables, d: Tables, to: map<string, int>)
    requires WalletsOnly(a, b, to) && WalletsOnly(b, d, to)
    ensures WalletsOnly(a, d, to)
  {
  }

  lemma {:induction false} SeatedWallets(s: State, c: Config, n: nat, to: map<string, int>)
    requires n <= |c.slugs| && s.current.Some?
             && (forall slug :: slug in c.slugs ==> slug in s.slots && slug in s.snapshot.homes)
    ensures WalletsOnly(s.db, Seated(s, c, n), to)
  {
    if n > 0 {
      SeatedWallets(s, c, n - 1, to);
    }
  }

  lemma {:induction false} BoughtWallets(
    db: Tables, c: Config, buyers: seq<string>, visit: string, to: map<string, int>)
    requires WritesWallets(c, to)
    ensures WalletsOnly(db, Bought(db, c, buyers, visit), to)
  {
    if buyers != [] {
      var front := Bought(db, c, buyers[..|buyers| - 1], visit);
      BoughtWallets(db, c, buyers[..|buyers| - 1], visit, to);
      WalletsChain(db, front, c.buy(front, buyers[|buyers| - 1], visit), to);
    }
  }

  lemma TradeWallets(s: State, c: Config, publishFailsAfter: Option<nat>, to: map<string, int>)
    requires WritesWallets(c, to)
    ensures WalletsOnly(s.db, Trade(s, c, publishFailsAfter).state.db, to)
  {
    hide SeatsClash, Seated, Bought, Buyers;
    var open := OpenTrading(s, c);
    assert WalletsOnly(s.db, open.state.db, to) by {
      if open.state != s {
        var seated := Seated(s, c, |c.slugs|);
        SeatedWallets(s, c, |c.slugs|, to);
        WalletsChain(s.db, seated, c.stock(seated, s.current.value), to);
      }
    }
    if Trade(s, c, publishFailsAfter) != open {
      var buyers := Buyers(c, s.slots);
      var n := if publishFailsAfter.Some? && publishFailsAfter.value < |buyers|
          then publishFailsAfter.value + 1 else |buyers|;
      BoughtWallets(open.state.db, c, buyers[..n], s.current.value, to);
      WalletsChain(s.db, open.state.db, Trade(s, c, publishFailsAfter).state.db, to);
    }
  }

  /** The bridge itself writes no wallet copy. */
  lemma BridgeWallets(s: State, f: Frame, phase: string, to: map<string, int>)
    ensures f.ResidentMove? ==> WalletsOnly(s.db, RecordMove(s, f).db, to)
    ensures f.CaravanState? ==> WalletsOnly(s.db, SetPhase(s, phase, f).db, to)
    ensures f.CaravanState? ==> WalletsOnly(s.db, PrepareVisit(s, f).state.db, to)
  {
  }

  lemma CloseWallets(s: State, phase: string, to: map<string, int>)
    ensures WalletsOnly(s.db, CloseVisit(s, phase).db, to)
  {
  }

  lemma HandleWallets(s: State, c: Config, f: Frame, publishFailsAfter: Option<nat>, to: map<string, int>)
    requires WritesWallets(c, to)
    ensures WalletsOnly(s.db, Handle(s, c, f, publishFailsAfter).state.db, to)
  {
    hide Trade, WritesWallets, SetPhase, PrepareVisit, RecordMove, CloseVisit, WalletsOnly;
    SameWallets(s.db, to);
    match f
    case ResidentMove(_, _, _) => BridgeWallets(s, f, "", to);
    case OtherFrame =>
    case CaravanState(_, _, phase, _, _) =>
      BridgeWallets(s, f, "inbound", to);
      CloseWallets(s, phase, to);
      var trading := SetPhase(s, "trading", f);
      BridgeWallets(s, f, "trading", to);
      TradeWallets(trading, c, publishFailsAfter, to);
      WalletsChain(s.db, trading.db, Trade(trading, c, publishFailsAfter).state.db, to);
  }

  lemma SameWallets(db: Tables, to: map<string, int>)
    ensures WalletsOnly(db, db, to)
  {
  }

  /** From any moment of a run on. */
  lemma {:induction false} RunWallets(s: State, c: Config, fs: Frames, n: nat, to: map<string, int>)
    requires WritesWallets(c, to) && n <= |fs|
    ensures WalletsOnly(HandleAll(s, c, fs[..n]).state.db, HandleAll(s, c, fs).state.db, to)
  {
    hide Handle, WritesWallets;
    if n == |fs| {
      assert fs[..n] == fs;
    } else {
      var front := fs[..|fs| - 1];
      assert front[..n] == fs[..n];
      RunWallets(s, c, front, n, to);
      var prior := HandleAll(s, c, front);
      HandleWallets(prior.state, c, fs[|fs| - 1].0, fs[|fs| - 1].1, to);
      WalletsChain(HandleAll(s, c, fs[..n]).state.db, prior.state.db, HandleAll(s, c, fs).state.db, to);
    }
  }

  /** Services that write no wallet copy leave nothing behind. */
  lemma WalletSafeDemo(before: Tables, c: Config, fs: Frames)
    requires WellBehaved(c) && KeepsWallets(c) && !Exposed(before, c) && VisitorsHaveVisits(before)
    requires forall s :: s in c.slugs ==> s in before.residents
    ensures Complete(before, c, fs)
  {
    hide WellBehaved, WritesWallets, Exposed, VisitorsHaveVisits, Handle, Restored;
    DemoLeavesOnlyWallets(before, c, fs);
    RunWallets(Started(before, c), c, fs, 0, map[]);
    assert HandleAll(Started(before, c), c, fs[..0]).state == Started(before, c);
  }

  // ---------------------------------------------------------------- when the services are called

  /** Trading finds the visit, all residents on slots of their own, and no seat taken. */
  predicate Ready(s: State, c: Config) {
    && s.current.Some? && s.slots.Keys == (set slug | slug in c.slugs)
    && (forall slug :: slug in c.slugs ==> slug in s.snapshot.homes)
    && s.current.value in s.db.visits && !SeatsClash(s, c)
  }

  /** The frame opens trading. */
  predicate Serves(s: State, c: Config, f: Frame) {
    f.CaravanState? && VISIT_PREFIX <= f.visit && f.phase == "trading" && Ready(SetPhase(s, "trading", f), c)
  }

  function Idle(c: Config): Config {
    c.(stock := (db: Tables, v: string) => db, buy := (db: Tables, s: string, v: string) => db)
  }

  ghost predicate TradesAt(before: Tables, c: Config, fs: Frames, n: nat)
    requires forall s :: s in c.slugs ==> s in before.residents
  {
    n < |fs|
    && var prior := HandleAll(Started(before, c), Idle(c), fs[..n]);
       !prior.raised && Serves(prior.state, c, fs[n].0)
  }

  /** Some frame opens trading: a matter of the frames and the tables alone, told by a run in
      which the services do nothing. */
  ghost predicate Trades(before: Tables, c: Config, fs: Frames)
    requires forall s :: s in c.slugs ==> s in before.residents
  {
    exists n: nat :: TradesAt(before, c, fs, n)
  }

  lemma OpenUnready(s: State, c: Config, d: Config)
    requires c.slugs == d.slugs && !Ready(s, c)
    ensures OpenTrading(s, c) == OpenTrading(s, d)
    ensures OpenTrading(s, c).raised || s.current.None? || s.current.value !in s.db.visits
  {
    hide Seated;
    if s.current.Some? && s.slots.Keys == (set slug | slug in c.slugs)
        && (forall slug :: slug in c.slugs ==> slug in s.snapshot.homes) {
      assert SeatsClash(s, c) == SeatsClash(s, d);
    }
  }

  lemma UnservedAlike(s: State, c: Config, d: Config, f: Frame, publishFailsAfter: Option<nat>)
    requires c.slugs == d.slugs && !Serves(s, c, f)
    ensures Handle(s, c, f, publishFailsAfter) == Handle(s, d, f, publishFailsAfter)
  {
    hide OpenTrading, SetPhase, PrepareVisit, RecordMove, CloseVisit, Ready, Bought, Buyers;
    if f.CaravanState? && VISIT_PREFIX <= f.visit && f.phase == "trading" {
      OpenUnready(SetPhase(s, "trading", f), c, d);
    }
  }

  /** Until trading opens a run is the same whatever the services do. */
  lemma {:induction false} UntradedAlike(before: Tables, c: Config, d: Config, fs: Frames)
    requires c.slugs == d.slugs && forall s :: s in c.slugs ==> s in before.residents
    requires forall n: nat :: !TradesAt(before, c, fs, n)
    ensures HandleAll(Started(before, c), d, fs) == HandleAll(Started(before, c), Idle(c), fs)
  {
    hide Handle, Serves, Started;
    if fs != [] {
      var k := |fs| - 1;
      var front := fs[..k];
      forall n: nat ensures !TradesAt(before, c, front, n) {
        if n < |front| {
          assert front[..n] == fs[..n];
          assert !TradesAt(before, c, fs, n);
        }
      }
      UntradedAlike(before, c, d, front);
      var prior := HandleAll(Started(before, c), d, front);
      assert !TradesAt(before, c, fs, k);
      if !prior.raised {
        UnservedAlike(prior.state, c, d, fs[k].0, fs[k].1);
        UnservedAlike(prior.state, c, Idle(c), fs[k].0, fs[k].1);
      }
    }
  }

  lemma SameStart(before: Tables, c: Config, d: Config)
    requires c.slugs == d.slugs && c.codes == d.codes && forall s :: s in c.slugs ==> s in before.residents
    ensures Started(before, c) == Started(before, d)
  {
  }

  lemma IdleIsSafe(c: Config)
    ensures WellBehaved(Idle(c)) && KeepsWallets(Idle(c))
  {
  }

  // ---------------------------------------------------------------- a service that writes the copy

  /** Another number than the wallet copy shows. */
  function Other(row: ResidentRow): int { if row.wallet == Some(0) then 1 else 0 }

  /** The buyer spends what it has, to the last coin or but one, and the wallet copy shows what is left. */
  function Spend(before: Tables, c: Config, db: Tables, slug: string): Tables {
    if slug in c.slugs && slug in before.residents && slug in db.residents then
      var left := Other(before.residents[slug]);
      db.(treasuries := db.treasuries[slug := left],
          residents := db.residents[slug := db.residents[slug].(wallet := Some(left))])
    else db
  }

  function Spender(before: Tables, c: Config): Config {
    Idle(c).(buy := (db: Tables, s: string, v: string) => Spend(before, c, db, s))
  }

  function Others(before: Tables): map<string, int> { map r | r in before.residents :: Other(before.residents[r]) }

  lemma SpenderBehaves(before: Tables, c: Config)
    ensures Spender(before, c).slugs == c.slugs && Spender(before, c).codes == c.codes
    ensures WellBehaved(Spender(before, c)) && WritesWallets(Spender(before, c), Others(before))
  {
    hide Spend, Within, WalletsOnly;
    var d := Spender(before, c);
    forall db, s, v
      ensures Within(db, d.buy(db, s, v), Tracked(d, {v}, {})) && WalletsOnly(db, d.buy(db, s, v), Others(before)) {
      SpendWithin(before, c, db, s, Tracked(d, {v}, {}));
      SpendWallets(before, c, db, s);
    }
    forall db, v
      ensures Within(db, d.stock(db, v), Tracked(d, {v}, {})) && WalletsOnly(db, d.stock(db, v), Others(before)) {
      WithinItself(db, Tracked(d, {v}, {}));
      SameWallets(db, Others(before));
    }
  }

  lemma SpendWithin(before: Tables, c: Config, db: Tables, s: string, scope: Scope)
    requires scope.slugs == set x | x in c.slugs
    ensures Within(db, Spend(before, c, db, s), scope)
  {
  }

  lemma SpendWallets(before: Tables, c: Config, db: Tables, s: string)
    ensures WalletsOnly(db, Spend(before, c, db, s), Others(before))
  {
  }

  /** Somebody's copy shows what the service wrote. */
  ghost predicate Spent(before: Tables, db: Tables, r: string) {
    r in before.residents && r in db.residents && db.residents[r].wallet == Some(Other(before.residents[r]))
  }

  lemma SomebodyBuys(c: Config, slots: map<string, Tile>)
    requires c.slugs != [] && forall slug :: slug in c.slugs ==> slug in slots
    ensures |Buyers(c, slots)| > 0
  {
    var slug := c.slugs[0];
    var k := SlotIndex(slots[slug]);
    WhereMember(c.slugs, SitsAt(slots, k), slug);
    assert slug in BuyersAt(c, slots, k);
  }

  lemma BuyersAreTracked(c: Config, slots: map<string, Tile>)
    ensures forall r :: r in Buyers(c, slots) ==> r in c.slugs
  {
    forall r | r in Buyers(c, slots) ensures r in c.slugs {
      WhereMember(c.slugs, SitsAt(slots, 0), r);
      WhereMember(c.slugs, SitsAt(slots, 1), r);
      WhereMember(c.slugs, SitsAt(slots, 2), r);
      WhereMember(c.slugs, SitsAt(slots, 3), r);
    }
  }

  lemma ReadyOpens(before: Tables, s: State, c: Config)
    requires Ready(s, c) && s.db.residents.Keys == before.residents.Keys
    ensures var open := OpenTrading(s, Spender(before, c));
            !open.raised && open.state.db.residents.Keys == before.residents.Keys
  {
    hide Seated, SeatsClash, Spend;
    var d := Spender(before, c);
    SameClash(s, c, d);
    SeatedRows(s, d, |d.slugs|);
  }

  lemma LastBuyerSpends(before: Tables, c: Config, db: Tables, buyers: seq<string>, visit: string)
    requires buyers != [] && buyers[|buyers| - 1] in c.slugs && (forall x :: x in c.slugs ==> x in before.residents)
    requires db.residents.Keys == before.residents.Keys
    ensures Spent(before, Bought(db, Spender(before, c), buyers, visit), buyers[|buyers| - 1])
  {
    hide WritesWallets, WellBehaved;
    SpenderBehaves(before, c);
    BoughtWallets(db, Spender(before, c), buyers[..|buyers| - 1], visit, Others(before));
  }

  /** However soon publishing fails, the first buyer has bought. */
  lemma TradeBuys(s: State, d: Config, publishFailsAfter: Option<nat>) returns (n: nat)
    requires s.current.Some? && s.current.value in s.db.visits && !OpenTrading(s, d).raised && |Buyers(d, s.slots)| > 0
    ensures 0 < n <= |Buyers(d, s.slots)|
    ensures Trade(s, d, publishFailsAfter).state.db
            == Bought(OpenTrading(s, d).state.db, d, Buyers(d, s.slots)[..n], s.current.value)
  {
    hide Buyers, OpenTrading, Bought;
    var buyers := Buyers(d, s.slots);
    n := if publishFailsAfter.Some? && publishFailsAfter.value < |buyers|
        then publishFailsAfter.value + 1 else |buyers|;
  }

  /** Once trading opens, somebody has bought. */
  lemma TradeSpends(before: Tables, s: State, c: Config, publishFailsAfter: Option<nat>) returns (r: string)
    requires Ready(s, c) && c.slugs != [] && (forall x :: x in c.slugs ==> x in before.residents)
    requires s.db.residents.Keys == before.residents.Keys
    ensures r in c.slugs && Spent(before, Trade(s, Spender(before, c), publishFailsAfter).state.db, r)
  {
    hide Buyers, OpenTrading, WritesWallets, WellBehaved, Spender, Spend, Bought, Spent, Trade, SeatsClash;
    var d := Spender(before, c);
    SpenderBehaves(before, c);
    ReadyOpens(before, s, c);
    SomebodyBuys(d, s.slots);
    BuyersAreTracked(d, s.slots);
    var n := TradeBuys(s, d, publishFailsAfter);
    r := Buyers(d, s.slots)[..n][n - 1];
    LastBuyerSpends(before, c, OpenTrading(s, d).state.db, Buyers(d, s.slots)[..n], s.current.value);
  }

  lemma SameClash(s: State, c: Config, d: Config)
    requires c.slugs == d.slugs && s.current.Some?
             && (forall slug :: slug in c.slugs ==> slug in s.slots && slug in s.snapshot.homes)
    ensures SeatsClash(s, c) == SeatsClash(s, d)
  {
  }

  lemma {:induction false} SeatedRows(s: State, c: Config, n: nat)
    requires n <= |c.slugs| && s.current.Some?
             && (forall slug :: slug in c.slugs ==> slug in s.slots && slug in s.snapshot.homes)
    ensures Seated(s, c, n).visits == s.db.visits && Seated(s, c, n).residents.Keys == s.db.residents.Keys
    ensures Seated(s, c, n).items == s.db.items
  {
    if n > 0 {
      SeatedRows(s, c, n - 1);
    }
  }

  lemma {:induction false} FirstTrade(before: Tables, c: Config, fs: Frames, n: nat) returns (first: nat)
    requires forall s :: s in c.slugs ==> s in before.residents
    requires TradesAt(before, c, fs, n)
    ensures first <= n && TradesAt(before, c, fs, first) && forall m: nat :: m < first ==> !TradesAt(before, c, fs, m)
    decreases n
  {
    first := n;
    if m: nat :| m < n && TradesAt(before, c, fs, m) {
      first := FirstTrade(before, c, fs, m);
    }
  }

  /** Up to the first frame that opens trading. */
  lemma UntilTrade(before: Tables, c: Config, d: Config, fs: Frames, n: nat)
    requires c.slugs == d.slugs && forall s :: s in c.slugs ==> s in before.residents
    requires n <= |fs| && forall m: nat :: m < n ==> !TradesAt(before, c, fs, m)
    ensures HandleAll(Started(before, c), d, fs[..n]) == HandleAll(Started(before, c), Idle(c), fs[..n])
  {
    hide HandleAll, Serves, Started;
    forall m: nat ensures !TradesAt(before, c, fs[..n], m) {
      if m < n {
        assert fs[..n][..m] == fs[..m];
        assert !TradesAt(before, c, fs, m);
      }
    }
    UntradedAlike(before, c, d, fs[..n]);
  }

  /** What a service wrote is still there at the end, and restoring does not undo it. */
  lemma SpentStays(before: Tables, c: Config, fs: Frames, n: nat, r: string)
    requires n <= |fs| && forall s :: s in c.slugs ==> s in before.residents
    requires Spent(before, HandleAll(Started(before, c), Spender(before, c), fs[..n]).state.db, r)
    ensures !Complete(before, Spender(before, c), fs)
  {
    hide HandleAll, Started;
    var d := Spender(before, c);
    SpenderBehaves(before, c);
    SameStart(before, c, d);
    RunWallets(Started(before, c), d, fs, n, Others(before));
    assert Spent(before, Restored(HandleAll(Started(before, c), d, fs).state), r);
  }

  lemma ServedSpends(before: Tables, s: State, c: Config, f: Frame, publishFailsAfter: Option<nat>) returns (r: string)
    requires Serves(s, c, f) && c.slugs != [] && (forall x :: x in c.slugs ==> x in before.residents)
    requires s.db.residents.Keys == before.residents.Keys
    ensures r in c.slugs && Spent(before, Handle(s, Spender(before, c), f, publishFailsAfter).state.db, r)
  {
    hide Spender, Spend, Ready, Others, Trade, SetPhase;
    BridgeWallets(s, f, "trading", Others(before));
    r := TradeSpends(before, SetPhase(s, "trading", f), c, publishFailsAfter);
  }

  lemma TradingLeavesCopies(before: Tables, c: Config, fs: Frames)
    requires c.slugs != [] && forall s :: s in c.slugs ==> s in before.residents
    requires Trades(before, c, fs)
    ensures !Complete(before, Spender(before, c), fs)
  {
    hide Started, Spender, Others, Handle, WritesWallets, WellBehaved, Serves, Complete;
    SpenderBehaves(before, c);
    var some: nat :| TradesAt(before, c, fs, some);
    var n := FirstTrade(before, c, fs, some);
    var d, start := Spender(before, c), Started(before, c);
    UntilTrade(before, c, d, fs, n);
    SameRows(before, c, d, fs[..n]);
    assert fs[..n + 1][..n] == fs[..n];
    var r := ServedSpends(before, HandleAll(start, d, fs[..n]).state, c, fs[n].0, fs[n].1);
    SpentStays(before, c, fs, n + 1, r);
  }

  lemma SameRows(before: Tables, c: Config, d: Config, fs: Frames)
    requires forall s :: s in c.slugs ==> s in before.residents
    requires WritesWallets(d, Others(before))
    ensures HandleAll(Started(before, c), d, fs).state.db.residents.Keys == before.residents.Keys
  {
    hide Handle, WritesWallets, Others;
    RunWallets(Started(before, c), d, fs, 0, Others(before));
    assert HandleAll(Started(before, c), d, fs[..0]).state == Started(before, c);
  }

  // ---------------------------------------------------------------- goods taken off sale

  ghost predicate StrandsAt(before: Tables, c: Config, fs: Frames, n: nat)
    requires forall s :: s in c.slugs ==> s in before.residents
  {
    n < |fs|
    && var prior := HandleAll(Started(before, c), Idle(c), fs[..n]);
       !prior.raised && Strands(before, prior.state, c, fs[n].0)
  }

  /** Some frame closes a visit that a good is on sale for which the bridge does not track: again
      told by a run in which the services do nothing. */
  ghost predicate Stranding(before: Tables, c: Config, fs: Frames)
    requires forall s :: s in c.slugs ==> s in before.residents
  {
    exists n: nat :: StrandsAt(before, c, fs, n)
  }

  lemma SameStrands(before: Tables, s: State, c: Config, d: Config, f: Frame)
    requires c.codes == d.codes
    ensures Strands(before, s, c, f) <==> Strands(before, s, d, f)
  {
    assert forall k, v :: Stranger(before, c, k, v) == Stranger(before, d, k, v);
  }

  /** A run with idle services in which no such good is reached keeps its record complete. */
  lemma {:induction false} SparedTracks(before: Tables, c: Config, fs: Frames)
    requires forall s :: s in c.slugs ==> s in before.residents
    requires forall n: nat :: !StrandsAt(before, c, fs, n)
    ensures Tracks(before, HandleAll(Started(before, c), Idle(c), fs).state, Idle(c))
  {
    hide Tracks, Handle, Strands, Started, WellBehaved, WritesWallets;
    IdleIsSafe(c);
    SameStart(before, c, Idle(c));
    if fs == [] {
      StartTracks(before, Idle(c));
    } else {
      var k := |fs| - 1;
      var front := fs[..k];
      forall n: nat ensures !StrandsAt(before, c, front, n) {
        if n < |front| {
          assert front[..n] == fs[..n];
          assert !StrandsAt(before, c, fs, n);
        }
      }
      SparedTracks(before, c, front);
      var prior := HandleAll(Started(before, c), Idle(c), front);
      assert !StrandsAt(before, c, fs, k);
      if !prior.raised {
        SameStrands(before, prior.state, c, Idle(c), fs[k].0);
        HandleKeeps(before, prior.state, Idle(c), fs[k].0, fs[k].1);
      }
    }
  }

  /** The good as it was, or off sale. */
  ghost predicate OnlyWithdrawn(a: map<string, ItemRow>, b: map<string, ItemRow>, k: string) {
    k in a ==> k in b && (b[k] == a[k] || b[k] == a[k].(active := false))
  }

  lemma IdleTradesGoods(s: State, c: Config, publishFailsAfter: Option<nat>)
    ensures Trade(s, Idle(c), publishFailsAfter).state.db.items == s.db.items
    ensures Trade(s, Idle(c), publishFailsAfter).state.snapshot == s.snapshot
  {
    hide SeatsClash, Buyers;
    var d := Idle(c);
    if OpenTrading(s, d).state != s {
      SeatedRows(s, d, |d.slugs|);
    }
    forall db, buyers, visit ensures Bought(db, d, buyers, visit) == db {
      IdleBuys(db, c, buyers, visit);
    }
  }

  lemma {:induction false} IdleBuys(db: Tables, c: Config, buyers: seq<string>, visit: string)
    ensures Bought(db, Idle(c), buyers, visit) == db
  {
    if buyers != [] {
      IdleBuys(db, c, buyers[..|buyers| - 1], visit);
    }
  }

  lemma ClosingGoods(s: State, phase: string, k: string)
    ensures OnlyWithdrawn(s.db.items, CloseVisit(s, phase).db.items, k) && CloseVisit(s, phase).snapshot == s.snapshot
  {
    hide SentHome;
  }

  lemma OtherStepsGoods(s: State, f: Frame, phase: string)
    ensures f.ResidentMove? ==> RecordMove(s, f).db.items == s.db.items && RecordMove(s, f).snapshot == s.snapshot
    ensures f.CaravanState? ==>
              SetPhase(s, phase, f).db.items == s.db.items && SetPhase(s, phase, f).snapshot == s.snapshot
    ensures f.CaravanState? ==>
              PrepareVisit(s, f).state.db.items == s.db.items && PrepareVisit(s, f).state.snapshot == s.snapshot
  {
    hide Placed;
  }

  lemma IdleHandlesGoods(s: State, c: Config, f: Frame, publishFailsAfter: Option<nat>, k: string)
    ensures var t := Handle(s, Idle(c), f, publishFailsAfter).state;
            OnlyWithdrawn(s.db.items, t.db.items, k) && t.snapshot == s.snapshot
  {
    hide Trade, SetPhase, PrepareVisit, RecordMove, CloseVisit;
    OtherStepsGoods(s, f, "inbound");
    if f.CaravanState? {
      OtherStepsGoods(s, f, "trading");
      ClosingGoods(s, f.phase, k);
      IdleTradesGoods(SetPhase(s, "trading", f), c, publishFailsAfter);
    }
  }

  /** From any moment of a run with idle services on. */
  lemma {:induction false} IdleRunsGoods(s: State, c: Config, fs: Frames, n: nat, k: string)
    requires n <= |fs|
    ensures var then_, last := HandleAll(s, Idle(c), fs[..n]).state, HandleAll(s, Idle(c), fs).state;
            OnlyWithdrawn(then_.db.items, last.db.items, k) && last.snapshot == then_.snapshot
  {
    hide Handle;
    if n == |fs| {
      assert fs[..n] == fs;
    } else {
      var front := fs[..|fs| - 1];
      assert front[..n] == fs[..n];
      IdleRunsGoods(s, c, front, n, k);
      IdleHandlesGoods(HandleAll(s, Idle(c), front).state, c, fs[|fs| - 1].0, fs[|fs| - 1].1, k);
    }
  }

  /** Closing takes the good off sale. */
  lemma StrandedIsWithdrawn(
    before: Tables, s: State, c: Config, f: Frame, publishFailsAfter: Option<nat>) returns (k: string)
    requires Strands(before, s, c, f) && forall k :: OnlyWithdrawn(before.items, s.db.items, k)
    ensures k in before.items && k !in c.codes && before.items[k].active
    ensures var items := Handle(s, Idle(c), f, publishFailsAfter).state.db.items; k in items && !items[k].active
  {
    hide Trade, PrepareVisit, SetPhase;
    k :| Stranger(before, c, k, s.current.value);
    assert OnlyWithdrawn(before.items, s.db.items, k);
    assert f.phase != "waiting" && f.phase != "inbound" && f.phase != "trading";
  }

  lemma StrandingLeavesGoods(before: Tables, c: Config, fs: Frames)
    requires forall s :: s in c.slugs ==> s in before.residents
    requires Stranding(before, c, fs)
    ensures !Complete(before, Idle(c), fs)
  {
    hide Handle, Strands;
    var n: nat :| StrandsAt(before, c, fs, n);
    var start, still := Started(before, c), Idle(c);
    SameStart(before, c, still);
    var s := HandleAll(start, still, fs[..n]).state;
    forall k ensures OnlyWithdrawn(before.items, s.db.items, k) {
      IdleRunsGoods(start, c, fs[..n], 0, k);
    }
    var k := StrandedIsWithdrawn(before, s, c, fs[n].0, fs[n].1);
    assert fs[..n + 1][..n] == fs[..n];
    IdleRunsGoods(start, c, fs, n + 1, k);
    IdleRunsGoods(start, c, fs, 0, k);
    GoodStaysOff(before, c, HandleAll(start, still, fs).state, k);
  }

  lemma GoodStaysOff(before: Tables, c: Config, s: State, k: string)
    requires forall s :: s in c.slugs ==> s in before.residents
    requires k in before.items && k !in c.codes && before.items[k].active
    requires k in s.db.items && !s.db.items[k].active && s.snapshot == Started(before, c).snapshot
    ensures Restored(s) != before
  {
    assert k in Restored(s).items && !Restored(s).items[k].active;
  }

  // ---------------------------------------------------------------- when the restore is complete

  /** On any tables and for any frames: whatever the services do within their rows the restore is
      complete, if and only if no frame opens trading and none closes a visit that a good is on
      sale for which the bridge does not track. */
  lemma RestoreCompleteIff(before: Tables, c: Config, fs: Frames)
    requires c.slugs != [] && forall s :: s in c.slugs ==> s in before.residents
    requires VisitorsHaveVisits(before)
    ensures (forall d: Config :: d.slugs == c.slugs && d.codes == c.codes && WellBehaved(d) ==> Complete(before, d, fs))
            <==> !Trades(before, c, fs) && !Stranding(before, c, fs)
  {
    hide WellBehaved, VisitorsHaveVisits, Complete, TradesAt, StrandsAt;
    if Trades(before, c, fs) {
      SpenderBehaves(before, c);
      TradingLeavesCopies(before, c, fs);
    } else if Stranding(before, c, fs) {
      IdleIsSafe(c);
      StrandingLeavesGoods(before, c, fs);
    } else {
      forall d: Config | d.slugs == c.slugs && d.codes == c.codes && WellBehaved(d) ensures Complete(before, d, fs) {
        UntouchedComplete(before, c, d, fs);
      }
    }
  }

  lemma UntouchedComplete(before: Tables, c: Config, d: Config, fs: Frames)
    requires c.slugs == d.slugs && c.codes == d.codes && forall s :: s in c.slugs ==> s in before.residents
    requires VisitorsHaveVisits(before) && !Trades(before, c, fs) && !Stranding(before, c, fs)
    ensures Complete(before, d, fs)
  {
    hide Handle, Started, Serves, Strands, VisitorsHaveVisits, Restored, Tracks, WritesWallets, WellBehaved;
    var start, still := Started(before, c), Idle(c);
    SameStart(before, c, d);
    UntradedAlike(before, c, d, fs);
    SparedTracks(before, c, fs);
    var last := HandleAll(start, still, fs).state;
    RestoreUndoes(before, last, still);
    IdleIsSafe(c);
    RunWallets(start, still, fs, 0, map[]);
    assert HandleAll(start, still, fs[..0]).state == start;
    StartWallets(before, c);
    hide HandleAll;
    WalletsTell(before.residents, last.db.residents);
  }

  lemma StartWallets(before: Tables, c: Config)
    requires forall s :: s in c.slugs ==> s in before.residents
    ensures Started(before, c).db.residents == before.residents
  {
  }

  /** Tables that expose no such good strand none. */
  lemma UnexposedStrandsNothing(before: Tables, c: Config, fs: Frames)
    requires !Exposed(before, c) && forall s :: s in c.slugs ==> s in before.residents
    ensures !Stranding(before, c, fs)
  {
    hide Exposed, Handle, Started, WellBehaved, WritesWallets, Tracks, Sparing;
    var still := Idle(c);
    IdleIsSafe(c);
    SameStart(before, c, still);
    SameExposure(before, c, still);
    StartTracks(before, still);
    forall n: nat ensures !StrandsAt(before, c, fs, n) {
      if n < |fs| {
        RunKeeps(before, Started(before, still), still, fs[..n]);
        var s := HandleAll(Started(before, c), still, fs[..n]).state;
        UnexposedSpares(before, s, still);
        SameStrands(before, s, c, still, fs[n].0);
      }
    }
  }

  lemma SameExposure(before: Tables, c: Config, d: Config)
    requires c.codes == d.codes
    ensures Exposed(before, c) <==> Exposed(before, d)
  {
    assert forall k, v :: Stranger(before, c, k, v) == Stranger(before, d, k, v);
  }

  // ---------------------------------------------------------------- a day of trading

  /** The caravan arrives, each resident walks onto a slot, trading begins. */
  function TradingDay(c: Config, visit: string, event: string): Frames
    requires |c.slugs| == 4
  {
    [(CaravanState(visit, event, "waiting", 1, (1, 1)), None)] + Walks(c, 4)
    + [(CaravanState(visit, event, "trading", 2, (1, 1)), None)]
  }

  function Walks(c: Config, n: nat): Frames
    requires n <= |c.slugs| && |c.slugs| == 4
  {
    seq(n, i requires 0 <= i < n => (ResidentMove(c.slugs[i], VISITOR_SLOTS[i], Some(VISITOR_SLOTS[i])), None))
  }

  /** A visit a demo can make: its rows are new, and no visit is visible. */
  ghost predicate Fresh(before: Tables, visit: string, event: string) {
    && VISIT_PREFIX <= visit && visit !in before.visits && EVENT_PREFIX <= event && event !in before.events
    && !AnyVisible(before.visits) && forall v :: v in before.visits ==> before.visits[v].event != event
  }

  /** The visit has come and the first `n` residents stand on their slots. */
  ghost predicate Arrived(before: Tables, c: Config, s: Step, visit: string, n: nat)
    requires n <= |c.slugs| && |c.slugs| == 4 && forall r :: r in c.slugs ==> r in before.residents
  {
    && !s.raised && s.state.current == Some(visit) && visit in s.state.db.visits
    && s.state.snapshot == Started(before, c).snapshot && s.state.db.visitors == before.visitors
    && s.state.slots.Keys == (set r | r in c.slugs[..n])
    && forall i :: 0 <= i < n ==> s.state.slots[c.slugs[i]] == VISITOR_SLOTS[i]
  }

  lemma FreshPrepares(before: Tables, c: Config, visit: string, event: string, phase: string)
    requires forall r :: r in c.slugs ==> r in before.residents
    requires Fresh(before, visit, event) && phase == "waiting"
    ensures var s := HandleAll(Started(before, c), Idle(c), [(CaravanState(visit, event, phase, 1, (1, 1)), None)]);
            && !s.raised && s.state.current == Some(visit) && visit in s.state.db.visits
               && !s.state.db.visits[visit].withdrawn
            && s.state.snapshot == Started(before, c).snapshot && s.state.db.visitors == before.visitors
            && s.state.db.items == before.items && s.state.slots == map[]
  {
    var f := CaravanState(visit, event, phase, 1, (1, 1));
    var fs := [(f, None)];
    var start := Started(before, c);
    assert fs[..0] == [];
    assert HandleAll(start, Idle(c), fs[..0]) == Step(start, false);
    assert !(exists v :: v in start.db.visits && (start.db.visits[v].event == event || start.db.visits[v].visible));
  }

  lemma {:induction false} ResidentsArrive(before: Tables, c: Config, visit: string, event: string, n: nat)
    requires n <= 4 && |c.slugs| == 4 && (forall i, j :: 0 <= i < j < 4 ==> c.slugs[i] != c.slugs[j])
    requires (forall r :: r in c.slugs ==> r in before.residents) && Fresh(before, visit, event)
    ensures Arrived(before, c, HandleAll(Started(before, c), Idle(c), TradingDay(c, visit, event)[..n + 1]), visit, n)
  {
    hide Started, PrepareVisit, Fresh, RecordMove, Arrived;
    var day, start := TradingDay(c, visit, event), Started(before, c);
    if n == 0 {
      FreshPrepares(before, c, visit, event, "waiting");
      assert day[..1] == [(CaravanState(visit, event, "waiting", 1, (1, 1)), None)];
      NoneArrived(before, c, HandleAll(start, Idle(c), day[..1]), visit);
    } else {
      ResidentsArrive(before, c, visit, event, n - 1);
      assert day[..n + 1][..n] == day[..n];
      OneArrives(before, c, HandleAll(start, Idle(c), day[..n]), visit, n, day[n].0);
    }
  }

  lemma NoneArrived(before: Tables, c: Config, s: Step, visit: string)
    requires |c.slugs| == 4 && forall r :: r in c.slugs ==> r in before.residents
    requires !s.raised && s.state.current == Some(visit) && visit in s.state.db.visits
    requires s.state.snapshot == Started(before, c).snapshot && s.state.db.visitors == before.visitors
             && s.state.slots == map[]
    ensures Arrived(before, c, s, visit, 0)
  {
    hide Started;
  }

  lemma OneArrives(before: Tables, c: Config, s: Step, visit: string, n: nat, f: Frame)
    requires 0 < n <= 4 && |c.slugs| == 4 && (forall i, j :: 0 <= i < j < 4 ==> c.slugs[i] != c.slugs[j])
    requires (forall r :: r in c.slugs ==> r in before.residents) && Arrived(before, c, s, visit, n - 1)
    requires f == ResidentMove(c.slugs[n - 1], VISITOR_SLOTS[n - 1], Some(VISITOR_SLOTS[n - 1]))
    ensures !s.raised && Arrived(before, c, Step(RecordMove(s.state, f), false), visit, n)
  {
    hide Started, RecordMove;
    assert c.slugs[..n] == c.slugs[..n - 1] + [c.slugs[n - 1]];
    OneMore(c.slugs[..n - 1], c.slugs[n - 1]);
    StartHomes(before, c, c.slugs[n - 1]);
    OntoSlot(s.state, f, n - 1);
  }

  lemma OneMore(front: seq<string>, last: string)
    ensures (set r | r in front + [last]) == (set r | r in front) + {last}
  {
  }

  lemma StartHomes(before: Tables, c: Config, r: string)
    requires r in c.slugs && forall r :: r in c.slugs ==> r in before.residents
    ensures r in Started(before, c).snapshot.homes && Started(before, c).snapshot.homes[r].id == before.residents[r].id
  {
  }

  lemma OntoSlot(s: State, f: Frame, k: nat)
    requires k < 4 && f.ResidentMove? && f.target == Some(VISITOR_SLOTS[k]) && s.current.Some?
             && f.slug in s.snapshot.homes
    ensures var t := RecordMove(s, f);
            && t.slots == s.slots[f.slug := VISITOR_SLOTS[k]] && t.current == s.current && t.snapshot == s.snapshot
            && t.db.visits == s.db.visits && t.db.visitors == s.db.visitors
  {
  }

  /** The day trades, so by the equivalence above some service leaves wallet copies behind. */
  lemma TradingDayTrades(before: Tables, c: Config, visit: string, event: string)
    requires |c.slugs| == 4 && (forall i, j :: 0 <= i < j < 4 ==> c.slugs[i] != c.slugs[j])
    requires forall r :: r in c.slugs ==> r in before.residents
    requires forall i, j :: 0 <= i < j < 4 ==> before.residents[c.slugs[i]].id != before.residents[c.slugs[j]].id
    requires Fresh(before, visit, event) && VisitorsHaveVisits(before)
    ensures Trades(before, c, TradingDay(c, visit, event))
    ensures !Complete(before, Spender(before, c), TradingDay(c, visit, event))
  {
    hide Started, HandleAll, Fresh, Complete, Spender;
    var day := TradingDay(c, visit, event);
    ResidentsArrive(before, c, visit, event, 4);
    var s := HandleAll(Started(before, c), Idle(c), day[..5]).state;
    assert c.slugs[..4] == c.slugs;
    var t := SetPhase(s, "trading", day[5].0);
    forall r | r in c.slugs ensures r in t.snapshot.homes && t.snapshot.homes[r].id == before.residents[r].id {
      StartHomes(before, c, r);
    }
    NewVisit(before, visit, event);
    SeatsFree(before, t, c, visit);
    assert TradesAt(before, c, day, 5);
    TradingLeavesCopies(before, c, day);
  }

  lemma NewVisit(before: Tables, visit: string, event: string)
    requires Fresh(before, visit, event)
    ensures visit !in before.visits && VISIT_PREFIX <= visit
  {
  }

  lemma SeatsFree(before: Tables, s: State, c: Config, visit: string)
    requires |c.slugs| == 4
             && (forall r :: r in c.slugs ==> r in before.residents && r in s.slots && r in s.snapshot.homes)
    requires forall i :: 0 <= i < 4 ==> s.slots[c.slugs[i]] == VISITOR_SLOTS[i]
    requires forall i :: 0 <= i < 4 ==> s.snapshot.homes[c.slugs[i]].id == before.residents[c.slugs[i]].id
    requires forall i, j :: 0 <= i < j < 4 ==> before.residents[c.slugs[i]].id != before.residents[c.slugs[j]].id
    requires s.current == Some(visit) && visit !in before.visits && VisitorsHaveVisits(before)
             && s.db.visitors == before.visitors
    ensures !SeatsClash(s, c)
  {
    forall i | 0 <= i < 4 ensures VisitorKey(s, c.slugs[i]) == (visit, i) {
    }
  }

  // ---------------------------------------------------------------- goods the bridge does not track

  lemma {:induction false} LongerThanAll(taken: set<string>) returns (n: nat)
    ensures forall s :: s in taken ==> |s| < n
    decreases |taken|
  {
    n := 0;
    if s: string :| s in taken {
      n := LongerThanAll(taken - {s});
      n := if n <= |s| then |s| + 1 else n;
    }
  }

  lemma NewEvent(before: Tables) returns (event: string)
    ensures EVENT_PREFIX <= event && event !in before.events
    ensures forall v :: v in before.visits ==> before.visits[v].event != event
  {
    var n := LongerThanAll(before.events.Keys + set v | v in before.visits :: before.visits[v].event);
    event := EVENT_PREFIX + seq(n, i => 'x');
    assert |event| >= n;
  }

  /** The stranger's visit comes, and departs. */
  function Passing(visit: string, event: string): Frames {
    [(CaravanState(visit, event, "waiting", 1, (1, 1)), None),
     (CaravanState(visit, event, "departed", 2, (1, 1)), None)]
  }

  lemma PassingWithdraws(before: Tables, c: Config, k: string, visit: string, event: string)
    requires forall r :: r in c.slugs ==> r in before.residents
    requires Fresh(before, visit, event) && Stranger(before, c, k, visit)
    ensures !Complete(before, c, Passing(visit, event))
  {
    hide Fresh, PrepareVisit, SentHome;
    var fs := Passing(visit, event);
    PassingIdle(before, c, visit, event);
    var s := HandleAll(Started(before, c), c, fs[..1]).state;
    FreshPrepares(before, c, visit, event, "waiting");
    assert fs[..1] == [(CaravanState(visit, event, "waiting", 1, (1, 1)), None)];
    StrangerStaysWithdrawn(s, c, "departed", k);
    var last := fs[1].0;
    assert last.phase == "departed" && last.phase != "waiting" && last.phase != "inbound" && last.phase != "trading";
    assert Handle(s, c, last, None) == Step(CloseVisit(s, "departed"), false);
  }

  /** No purchase is made while it passes. */
  lemma PassingIdle(before: Tables, c: Config, visit: string, event: string)
    requires forall r :: r in c.slugs ==> r in before.residents
    ensures var first := Passing(visit, event)[..1];
            HandleAll(Started(before, c), c, first) == HandleAll(Started(before, c), Idle(c), first)
  {
    hide Started, PrepareVisit;
    var first := Passing(visit, event)[..1];
    assert first[..0] == [] && first[0].0.phase == "waiting";
    UnservedAlike(Started(before, c), c, Idle(c), first[0].0, None);
  }

  /** With services that leave wallet copies alone, every demo is undone completely if and only
      if the tables expose no good the bridge does not track. */
  lemma UndoneIffUnexposed(before: Tables, c: Config)
    requires WellBehaved(c) && KeepsWallets(c) && VisitorsHaveVisits(before)
    requires forall r :: r in c.slugs ==> r in before.residents
    ensures (forall fs :: Complete(before, c, fs)) <==> !Exposed(before, c)
  {
    hide WellBehaved, WritesWallets, VisitorsHaveVisits, Complete;
    if Exposed(before, c) {
      var k, visit :| Stranger(before, c, k, visit);
      var event := NewEvent(before);
      PassingWithdraws(before, c, k, visit, event);
    } else {
      forall fs ensures Complete(before, c, fs) {
        WalletSafeDemo(before, c, fs);
      }
    }
  }
}
