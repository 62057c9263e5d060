/** What the bridge does with each kind of frame, table by table and column by column. */
module MarketSteps {
  import opened Bags
  import opened MarketBridge

  /** The number in a frame, or what stands in for a missing one. */
  ghost predicate Given(n: int, default: int, used: int) { (n != 0 ==> used == n) && (n == 0 ==> used == default) }

  ghost predicate IsMost(a: int, b: int, most: int) { most >= a && most >= b && (most == a || most == b) }

  /** Only the tables differ, and of them only these. */
  ghost predicate OnlyTables(s: State, t: State) {
    && t.snapshot == s.snapshot && t.madeVisits == s.madeVisits && t.madeEvents == s.madeEvents
    && t.db.treasuries == s.db.treasuries && t.db.visitors == s.db.visitors && t.db.events == s.db.events
  }

  // ---------------------------------------------------------------- a visit is announced

  /** The row of a new visit: waiting, visible, at the tile of the frame or outside the market, and
      nothing done yet. */
  ghost predicate FreshVisit(f: Frame, row: VisitRow)
    requires f.CaravanState?
  {
    && row.event == f.event && row.phase == "waiting" && row.visible
    && (exists version :: Given(f.version, 1, version) && IsMost(1, version, row.version))
    && Given(f.tile.0, 102, row.tile.0) && Given(f.tile.1, 127, row.tile.1)
    && !row.stocked && !row.withdrawn && !row.settled && !row.departed
  }

  /** A waiting frame adds a visit and its event, current from then on, with no slots recorded. */
  ghost predicate Announces(s: State, f: Frame, t: State)
    requires f.CaravanState?
  {
    && t.db.visits.Keys == s.db.visits.Keys + {f.visit} && FreshVisit(f, t.db.visits[f.visit])
    && (forall v :: v in s.db.visits && v != f.visit ==> t.db.visits[v] == s.db.visits[v])
    && t.db.events.Keys == s.db.events.Keys + {f.event} && t.db.events[f.event].active
    && (forall e :: e in s.db.events && e != f.event ==> t.db.events[e] == s.db.events[e])
    && t.db.residents == s.db.residents && t.db.treasuries == s.db.treasuries && t.db.items == s.db.items
    && t.db.visitors == s.db.visitors && t.snapshot == s.snapshot
    && t.madeVisits == s.madeVisits + {f.visit} && t.madeEvents == s.madeEvents + {f.event}
    && t.current == Some(f.visit) && t.slots == map[]
  }

  lemma WaitingMeans(s: State, c: Config, f: Frame, fails: Option<nat>)
    requires f.CaravanState? && f.phase == "waiting"
    ensures var done := Handle(s, c, f, fails);
            && (done.raised ==> done.state == s)
            && (!("local-market-demo-" <= f.visit) ==> done == Step(s, false))
            && ("local-market-demo-" <= f.visit && !("local-market-demo-event-" <= f.event) ==> done.raised)
            && ("local-market-demo-" <= f.visit && !done.raised ==> Announces(s, f, done.state))
  {
    if "local-market-demo-" <= f.visit && !Handle(s, c, f, fails).raised {
      var version := OrElse(f.version, 1);
      assert Given(f.version, 1, version) && IsMost(1, version, if version < 1 then 1 else version);
      assert FreshVisit(f, Handle(s, c, f, fails).state.db.visits[f.visit]);
    }
  }

  // ---------------------------------------------------------------- its phase moves on

  /** The row of the current visit takes the phase and tile of the frame; its version only rises. */
  ghost predicate PhaseSet(s: State, f: Frame, t: State)
    requires f.CaravanState?
  {
    if s.current != Some(f.visit) || f.visit !in s.db.visits then t == s
    else
      && t.db.visits.Keys == s.db.visits.Keys
      && (forall v :: v in s.db.visits && v != f.visit ==> t.db.visits[v] == s.db.visits[v])
      && t.db.residents == s.db.residents && t.db.items == s.db.items && OnlyTables(s, t)
      && t.current == s.current && t.slots == s.slots
      && var before, after := s.db.visits[f.visit], t.db.visits[f.visit];
         && after.phase == f.phase && after.event == before.event && after.visible == before.visible
         && (exists version :: Given(f.version, 1, version) && IsMost(before.version, version, after.version))
         && Given(f.tile.0, before.tile.0, after.tile.0) && Given(f.tile.1, before.tile.1, after.tile.1)
         && after.stocked == before.stocked && after.withdrawn == before.withdrawn
         && after.settled == before.settled && after.departed == before.departed
  }

  lemma PhaseIsSet(s: State, f: Frame)
    requires f.CaravanState?
    ensures PhaseSet(s, f, SetPhase(s, f.phase, f))
  {
    if s.current == Some(f.visit) && f.visit in s.db.visits {
      var version := OrElse(f.version, 1);
      assert Given(f.version, 1, version);
      assert IsMost(s.db.visits[f.visit].version, version, SetPhase(s, f.phase, f).db.visits[f.visit].version);
    }
  }

  lemma InboundMeans(s: State, c: Config, f: Frame, fails: Option<nat>)
    requires f.CaravanState? && f.phase == "inbound" && "local-market-demo-" <= f.visit
    ensures !Handle(s, c, f, fails).raised && PhaseSet(s, f, Handle(s, c, f, fails).state)
  {
    PhaseIsSet(s, f);
    hide PhaseSet, SetPhase;
  }

  /** A trading frame first moves the phase on; trading then goes on from there. */
  lemma TradingMeans(s: State, c: Config, f: Frame, fails: Option<nat>) returns (t: State)
    requires f.CaravanState? && f.phase == "trading" && "local-market-demo-" <= f.visit
    ensures PhaseSet(s, f, t) && Handle(s, c, f, fails) == Trade(t, c, fails)
  {
    t := SetPhase(s, "trading", f);
    PhaseIsSet(s, f);
    hide PhaseSet, SetPhase, Trade;
  }

  // ---------------------------------------------------------------- residents move

  /** A target on one of the four market places becomes the resident's slot. */
  ghost predicate SlotNoted(s: State, f: Frame, t: State)
    requires f.ResidentMove?
  {
    if f.target.Some? && f.target.value in {(114, 93), (116, 93), (114, 95), (116, 95)} then
      && t.slots.Keys == s.slots.Keys + {f.slug} && t.slots[f.slug] == f.target.value
      && forall r :: r in s.slots && r != f.slug ==> t.slots[r] == s.slots[r]
    else t.slots == s.slots
  }

  /** A remembered resident seen on its slot or at home is put there, idle. */
  lemma MoveMeans(s: State, c: Config, f: Frame, fails: Option<nat>)
    requires f.ResidentMove?
    ensures var done := Handle(s, c, f, fails);
            !done.raised
            && if s.current == None || f.slug !in s.snapshot.homes then done.state == s
               else
                 var t := done.state;
                 && SlotNoted(s, f, t)
                 && OnlyTables(s, t) && t.db.visits == s.db.visits && t.db.items == s.db.items && t.current == s.current
                 && t.db.residents.Keys == s.db.residents.Keys
                 && forall r :: r in s.db.residents ==>
                      var seen := r == f.slug && ((r in t.slots && t.slots[r] == f.tile)
                                                  || s.snapshot.homes[f.slug].tile == f.tile);
                      t.db.residents[r] ==
                        if seen then s.db.residents[r].(tile := f.tile, status := "idle") else s.db.residents[r]
  {
    assert forall t :: t in VISITOR_SLOTS <==> t in {(114, 93), (116, 93), (114, 95), (116, 95)};
  }

  // ---------------------------------------------------------------- the visit closes

  /** What every closing does: the phase, and the goods of the visit off sale unless they were
      withdrawn before. */
  ghost predicate Closes(s: State, phase: string, t: State)
    requires s.current.Some? && s.current.value in s.db.visits
  {
    var visit := s.current.value;
    && t.db.visits.Keys == s.db.visits.Keys
    && (forall v :: v in s.db.visits && v != visit ==> t.db.visits[v] == s.db.visits[v])
    && (var before, after := s.db.visits[visit], t.db.visits[visit];
        && after.phase == phase && after.withdrawn && after.event == before.event && after.version == before.version
        && after.tile == before.tile && after.stocked == before.stocked && after.settled == before.settled
        && (if phase == "departed" then !after.visible && after.departed
            else after.visible && after.departed == before.departed))
    && t.db.items.Keys == s.db.items.Keys
    && (forall k :: k in s.db.items ==>
          t.db.items[k] ==
            if !s.db.visits[visit].withdrawn && s.db.items[k].kind == "import_good"
               && s.db.items[k].payload.visit == Some(visit)
            then s.db.items[k].(active := false) else s.db.items[k])
    && OnlyTables(s, t)
  }

  lemma OutboundMeans(s: State, c: Config, f: Frame, fails: Option<nat>)
    requires f.CaravanState? && f.phase == "outbound" && "local-market-demo-" <= f.visit
    ensures var done := Handle(s, c, f, fails);
            !done.raised
            && if s.current.None? || s.current.value !in s.db.visits then done.state == s
               else
                 && Closes(s, "outbound", done.state) && done.state.db.residents == s.db.residents
                 && done.state.current == s.current && done.state.slots == s.slots
  {
  }

  /** Departure also sends every remembered resident home in its old status, and forgets the visit. */
  lemma DepartureMeans(s: State, c: Config, f: Frame, fails: Option<nat>)
    requires f.CaravanState? && f.phase == "departed" && "local-market-demo-" <= f.visit
    ensures var done := Handle(s, c, f, fails);
            !done.raised
            && if s.current.None? || s.current.value !in s.db.visits then done.state == s
               else
                 && Closes(s, "departed", done.state) && done.state.current == None && done.state.slots == map[]
                 && done.state.db.residents.Keys == s.db.residents.Keys
                 && forall r :: r in s.db.residents ==>
                      done.state.db.residents[r] ==
                        if r in s.snapshot.homes
                        then s.db.residents[r].(tile := s.snapshot.homes[r].tile, status := s.snapshot.homes[r].status)
                        else s.db.residents[r]
  {
  }

  /** Frames of other kinds, phases and visits change nothing. */
  lemma OthersIgnored(s: State, c: Config, f: Frame, fails: Option<nat>)
    requires f.OtherFrame?
             || (f.CaravanState?
                 && (!("local-market-demo-" <= f.visit)
                     || (f.phase != "waiting" && f.phase != "inbound" && f.phase != "trading" && f.phase != "outbound"
                         && f.phase != "departed")))
    ensures Handle(s, c, f, fails) == Step(s, false)
  {
  }

  // ---------------------------------------------------------------- before and after

  /** Initialisation notes homes, balances and goods, and gives every tracked resident 10000. */
  lemma StartMeans(db: Tables, c: Config)
    requires forall s :: s in c.slugs ==> s in db.residents
    ensures var t := Started(db, c);
            && Remembers(db, t.snapshot, c) && t.current == None && t.slots == map[]
            && t.madeVisits == {} && t.madeEvents == {}
            && t.db == db.(treasuries := t.db.treasuries)
            && t.db.treasuries.Keys == db.treasuries.Keys + (set s | s in c.slugs)
            && forall s :: s in t.db.treasuries ==>
                 t.db.treasuries[s] == if s in c.slugs then 10_000 else db.treasuries[s]
  {
  }
}
