/** What the bridge writes to single rows: where residents stand, the visit rows and their keys,
    and what a departed visit leaves. */
module MarketRows {
  import opened Bags
  import opened MarketBridge
  import opened MarketRestore

  // ---------------------------------------------------------------- where residents stand

  /** Services that move nobody. */
  ghost predicate KeepsPlaces(c: Config) {
    && (forall db, v :: SamePlaces(db, c.stock(db, v)))
    && (forall db, s, v :: SamePlaces(db, c.buy(db, s, v)))
  }

  ghost predicate SamePlaces(a: Tables, b: Tables) {
    a.residents.Keys == b.residents.Keys && forall r :: r in a.residents ==> b.residents[r].tile == a.residents[r].tile
  }

  ghost predicate HomeOrSlot(before: Tables, r: string, tile: Tile) {
    tile in VISITOR_SLOTS || (r in before.residents && tile == before.residents[r].tile)
  }

  /** Tracked residents stand at home or on a slot, all others where they were. */
  ghost predicate Standing(before: Tables, c: Config, db: Tables) {
    && db.residents.Keys == before.residents.Keys
    && forall r :: r in db.residents ==>
         if r in c.slugs then HomeOrSlot(before, r, db.residents[r].tile)
         else db.residents[r].tile == before.residents[r].tile
  }

  ghost predicate InPlace(before: Tables, c: Config, s: State) {
    && Standing(before, c, s.db)
    && (forall r :: r in s.slots ==> s.slots[r] in VISITOR_SLOTS)
    && (forall r :: r in s.snapshot.homes ==>
          r in c.slugs && r in before.residents && s.snapshot.homes[r].tile == before.residents[r].tile)
  }

  lemma StandingOn(before: Tables, c: Config, a: Tables, b: Tables)
    requires Standing(before, c, a) && SamePlaces(a, b)
    ensures Standing(before, c, b)
  {
  }

  lemma SeatOneInPlace(before: Tables, c: Config, db: Tables, slug: string, tile: Tile)
    requires Standing(before, c, db) && slug in c.slugs && tile in VISITOR_SLOTS
    ensures forall visitors ::
              Standing(before, c, db.(visitors := visitors, residents := Placed(db.residents, slug, tile, "idle")))
  {
  }

  lemma {:induction false} SeatedInPlace(before: Tables, s: State, c: Config, n: nat)
    requires n <= |c.slugs| && s.current.Some?
             && (forall slug :: slug in c.slugs ==> slug in s.slots && slug in s.snapshot.homes)
    requires InPlace(before, c, s)
    ensures Standing(before, c, Seated(s, c, n))
  {
    hide VisitorKey, Placed, Standing;
    if n > 0 {
      SeatedInPlace(before, s, c, n - 1);
      var slug, db := c.slugs[n - 1], Seated(s, c, n - 1);
      SeatOneInPlace(before, c, db, slug, s.slots[slug]);
    }
  }

  lemma {:induction false} BoughtPlaces(db: Tables, c: Config, buyers: seq<string>, visit: string)
    requires KeepsPlaces(c)
    ensures SamePlaces(db, Bought(db, c, buyers, visit))
  {
    if buyers != [] {
      BoughtPlaces(db, c, buyers[..|buyers| - 1], visit);
    }
  }

  lemma OpenInPlace(before: Tables, s: State, c: Config)
    requires KeepsPlaces(c) && InPlace(before, c, s)
    ensures InPlace(before, c, OpenTrading(s, c).state)
  {
    hide Seated, SeatsClash, HomeOrSlot;
    if OpenTrading(s, c).state != s {
      SeatedInPlace(before, s, c, |c.slugs|);
      var seated := Seated(s, c, |c.slugs|);
      StandingOn(before, c, seated, c.stock(seated, s.current.value));
    }
  }

  lemma TradeInPlace(before: Tables, s: State, c: Config, publishFailsAfter: Option<nat>)
    requires KeepsPlaces(c) && InPlace(before, c, s)
    ensures InPlace(before, c, Trade(s, c, publishFailsAfter).state)
  {
    hide OpenTrading, Buyers, Bought, HomeOrSlot, KeepsPlaces;
    OpenInPlace(before, s, c);
    var open := OpenTrading(s, c).state;
    if Trade(s, c, publishFailsAfter).state != open {
      var buyers := Buyers(c, s.slots);
      var n := if publishFailsAfter.Some? && publishFailsAfter.value < |buyers|
          then publishFailsAfter.value + 1 else |buyers|;
      BoughtPlaces(open.db, c, buyers[..n], s.current.value);
      StandingOn(before, c, open.db, Bought(open.db, c, buyers[..n], s.current.value));
    }
  }

  lemma MoveInPlace(before: Tables, s: State, c: Config, f: Frame)
    requires InPlace(before, c, s) && f.ResidentMove?
    ensures InPlace(before, c, RecordMove(s, f))
  {
  }

  lemma CloseInPlace(before: Tables, s: State, c: Config, phase: string)
    requires InPlace(before, c, s)
    ensures InPlace(before, c, CloseVisit(s, phase))
  {
    hide Withdrawn;
  }

  lemma HandleInPlace(before: Tables, s: State, c: Config, f: Frame, publishFailsAfter: Option<nat>)
    requires KeepsPlaces(c) && InPlace(before, c, s)
    ensures InPlace(before, c, Handle(s, c, f, publishFailsAfter).state)
  {
    hide Trade, KeepsPlaces, RecordMove, CloseVisit, Standing;
    match f
    case ResidentMove(_, _, _) => MoveInPlace(before, s, c, f);
    case OtherFrame =>
    case CaravanState(_, _, phase, _, _) =>
      CloseInPlace(before, s, c, phase);
      var trading := SetPhase(s, "trading", f);
      assert InPlace(before, c, trading) by {
        SetPhasePlaces(before, s, c, "trading", f);
      }
      SetPhasePlaces(before, s, c, "inbound", f);
      TradeInPlace(before, trading, c, publishFailsAfter);
      PreparePlaces(before, s, c, f);
  }

  lemma SetPhasePlaces(before: Tables, s: State, c: Config, phase: string, f: Frame)
    requires InPlace(before, c, s) && f.CaravanState?
    ensures InPlace(before, c, SetPhase(s, phase, f))
  {
  }

  lemma PreparePlaces(before: Tables, s: State, c: Config, f: Frame)
    requires InPlace(before, c, s) && f.CaravanState?
    ensures InPlace(before, c, PrepareVisit(s, f).state)
  {
  }

  lemma StartInPlace(before: Tables, c: Config)
    requires forall r :: r in c.slugs ==> r in before.residents
    ensures InPlace(before, c, Started(before, c))
  {
  }

  /** Whatever frames say, a resident's row only ever stands at home or on a slot of the market. */
  lemma {:induction false} RowsStayInPlace(before: Tables, c: Config, fs: Frames)
    requires KeepsPlaces(c) && forall r :: r in c.slugs ==> r in before.residents
    ensures InPlace(before, c, HandleAll(Started(before, c), c, fs).state)
  {
    hide KeepsPlaces, InPlace, Handle, Started;
    StartInPlace(before, c);
    if fs != [] {
      var prior := HandleAll(Started(before, c), c, fs[..|fs| - 1]);
      RowsStayInPlace(before, c, fs[..|fs| - 1]);
      HandleInPlace(before, prior.state, c, fs[|fs| - 1].0, fs[|fs| - 1].1);
    }
  }

  // ---------------------------------------------------------------- the visit rows

  /** No two visits share an event, and at most one is visible. */
  ghost predicate VisitKeys(visits: map<string, VisitRow>) {
    forall v, w :: v in visits && w in visits && v != w ==>
      visits[v].event != visits[w].event && !(visits[v].visible && visits[w].visible)
  }

  /** A demo visit is refused exactly for a foreign event, for rows that exist, or where the new
      row would break a key of its table; and then nothing is written. */
  lemma PrepareRefusedIff(s: State, f: Frame, row: VisitRow)
    requires f.CaravanState? && VISIT_PREFIX <= f.visit && VisitKeys(s.db.visits)
    requires row.event == f.event && row.visible
    ensures var done := PrepareVisit(s, f);
            && (done.raised <==> !(EVENT_PREFIX <= f.event) || f.visit in s.db.visits || f.event in s.db.events
                                 || !VisitKeys(s.db.visits[f.visit := row]))
            && (done.raised ==> done.state == s)
            && (!done.raised ==>
                  && VisitKeys(done.state.db.visits) && done.state.current == Some(f.visit) && done.state.slots == map[]
                  && (forall v :: v in done.state.db.visits && done.state.db.visits[v].visible <==> v == f.visit))
  {
    var visits := s.db.visits[f.visit := row];
    if v :| v in s.db.visits && (s.db.visits[v].event == f.event || s.db.visits[v].visible) {
      if f.visit !in s.db.visits {
        assert visits[v] == s.db.visits[v] && visits[f.visit] == row;
      }
    }
  }

  /** A phase frame touches one row, the current visit's, and never lowers its version. */
  lemma PhaseOnlyRaises(s: State, phase: string, f: Frame, v: string)
    requires f.CaravanState? && v in s.db.visits
    ensures var t := SetPhase(s, phase, f);
            && v in t.db.visits && t.db.visits.Keys == s.db.visits.Keys
            && s.db.visits[v].version <= t.db.visits[v].version
            && (t.db.visits[v] != s.db.visits[v] ==> s.current == Some(v) && f.visit == v)
            && t.db.visits[v].visible == s.db.visits[v].visible && t.db.visits[v].withdrawn == s.db.visits[v].withdrawn
            && t == s.(db := s.db.(visits := t.db.visits))
  {
  }

  /** A departed visit leaves everyone at home as before the demo, no good of it on sale, nothing
      visible of it, and no visit being served. */
  lemma DepartedLeavesNothing(before: Tables, s: State, c: Config)
    requires Tracks(before, s, c) && s.current.Some? && s.current.value in s.db.visits
    requires !s.db.visits[s.current.value].withdrawn
    ensures var t := CloseVisit(s, "departed");
            && (forall r :: r in c.slugs ==>
                  r in t.db.residents && t.db.residents[r].tile == before.residents[r].tile
                  && t.db.residents[r].status == before.residents[r].status)
            && (forall k :: k in t.db.items && SoldByVisit(t.db.items[k], s.current.value) ==> !t.db.items[k].active)
            && !t.db.visits[s.current.value].visible && t.db.visits[s.current.value].departed
            && t.current == None && t.slots == map[]
  {
  }
}
