/** What trading hands to the stocking and purchase services, table by table. */
module MarketTrade {
  import opened Bags
  import opened MarketBridge

  /** The index of a visitor slot. */
  ghost predicate IsSlot(tile: Tile, k: nat) {
    k < 4 && tile == [(114, 93), (116, 93), (114, 95), (116, 95)][k]
  }

  ghost predicate OnSlots(slots: map<string, Tile>) { forall r :: r in slots ==> exists k :: IsSlot(slots[r], k) }

  ghost predicate SlotsDiffer(slots: map<string, Tile>, slugs: seq<string>) {
    forall i, j :: 0 <= i < j < |slugs| && slugs[i] in slots && slugs[j] in slots ==>
      slugs[i] != slugs[j] && slots[slugs[i]] != slots[slugs[j]]
  }

  // ---------------------------------------------------------------- taking the seats

  /** Each of these residents stands on its slot, idle, and everybody else where they were. */
  ghost predicate StandOnSlots(
    before: map<string, ResidentRow>, after: map<string, ResidentRow>, slots: map<string, Tile>, slugs: seq<string>)
  {
    && after.Keys == before.Keys
    && (forall r :: r in before && (r !in slugs || r !in slots) ==> after[r] == before[r])
    && (forall r :: r in before && r in slugs && r in slots ==>
          after[r] == before[r].(tile := slots[r], status := "idle"))
  }

  /** Each of these residents has the visitor row of its slot, with nothing bought, and all other
      visitor rows are as they were. */
  ghost predicate HaveSeats(
    before: map<(string, nat), VisitorRow>, after: map<(string, nat), VisitorRow>, slots: map<string, Tile>,
    homes: map<string, Home>, slugs: seq<string>, visit: string)
  {
    && (forall r, k: nat :: r in slugs && r in slots && r in homes && IsSlot(slots[r], k) ==>
          (visit, k) in after && after[(visit, k)] == VisitorRow(homes[r].id, r, None))
    && (forall v: string, k: nat :: v != visit || NobodyAt(slots, slugs, k) ==> Agree(before, after, (v, k)))
  }

  ghost predicate NobodyAt(slots: map<string, Tile>, slugs: seq<string>, k: nat) {
    forall r :: r in slugs && r in slots ==> !IsSlot(slots[r], k)
  }

  lemma SlotIndexIs(tile: Tile)
    ensures forall k :: IsSlot(tile, k) ==> SlotIndex(tile) == k
  {
  }

  lemma OneStands(
    before: map<string, ResidentRow>, now: map<string, ResidentRow>, slots: map<string, Tile>, slugs: seq<string>,
    slug: string)
    requires StandOnSlots(before, now, slots, slugs) && slug in slots
    ensures StandOnSlots(before, Placed(now, slug, slots[slug], "idle"), slots, slugs + [slug])
  {
  }

  lemma OneSits(
    before: map<(string, nat), VisitorRow>, now: map<(string, nat), VisitorRow>, slots: map<string, Tile>,
    homes: map<string, Home>, slugs: seq<string>, slug: string, visit: string)
    requires HaveSeats(before, now, slots, homes, slugs, visit) && slug in slots && slug in homes
    requires OnSlots(slots) && forall r :: r in slugs && r in slots ==> slots[r] != slots[slug]
    ensures HaveSeats(before, now[(visit, SlotIndex(slots[slug])) := VisitorRow(homes[slug].id, slug, None)],
                      slots, homes, slugs + [slug], visit)
  {
    var after := now[(visit, SlotIndex(slots[slug])) := VisitorRow(homes[slug].id, slug, None)];
    SlotIndexIs(slots[slug]);
    var here :| IsSlot(slots[slug], here);
    hide SlotIndex;
    forall r, k: nat | r in slugs && r in slots && IsSlot(slots[r], k) ensures k != here {
      assert slots[r] != slots[slug];
    }
    forall v: string, k: nat | v != visit || NobodyAt(slots, slugs + [slug], k) ensures Agree(before, after, (v, k)) {
      assert v != visit || k != here by {
        assert slug in slugs + [slug];
      }
      assert v != visit || NobodyAt(slots, slugs, k) by {
        assert forall r :: r in slugs ==> r in slugs + [slug];
      }
      assert Agree(before, now, (v, k));
    }
  }

  lemma DifferentSlots(slots: map<string, Tile>, slugs: seq<string>, n: nat)
    requires n < |slugs| && SlotsDiffer(slots, slugs) && slugs[n] in slots
    ensures forall r :: r in slugs[..n] && r in slots ==> slots[r] != slots[slugs[n]]
  {
    forall r | r in slugs[..n] && r in slots ensures slots[r] != slots[slugs[n]] {
      var i :| 0 <= i < n && slugs[i] == r;
    }
  }

  lemma OneMoreSeat(s: State, c: Config, n: nat, visit: string)
    requires 0 < n <= |c.slugs| && s.current == Some(visit)
    requires forall slug :: slug in c.slugs ==> slug in s.slots && slug in s.snapshot.homes
    ensures var db, slug := Seated(s, c, n - 1), c.slugs[n - 1];
            && Seated(s, c, n).residents == Placed(db.residents, slug, s.slots[slug], "idle")
            && Seated(s, c, n).visitors ==
               db.visitors[(visit, SlotIndex(s.slots[slug])) := VisitorRow(s.snapshot.homes[slug].id, slug, None)]
            && Seated(s, c, n) == db.(residents := Seated(s, c, n).residents, visitors := Seated(s, c, n).visitors)
  {
    hide Placed, SlotIndex;
  }

  /** The first `n` residents have taken their seats, and no other table has changed. */
  ghost predicate Seating(s: State, c: Config, n: nat, visit: string)
    requires n <= |c.slugs| && s.current.Some?
    requires forall slug :: slug in c.slugs ==> slug in s.slots && slug in s.snapshot.homes
  {
    var seats := Seated(s, c, n);
    && StandOnSlots(s.db.residents, seats.residents, s.slots, c.slugs[..n])
    && HaveSeats(s.db.visitors, seats.visitors, s.slots, s.snapshot.homes, c.slugs[..n], visit)
    && seats == s.db.(residents := seats.residents, visitors := seats.visitors)
  }

  lemma NobodySeated(s: State, c: Config, visit: string)
    requires s.current.Some? && (forall slug :: slug in c.slugs ==> slug in s.slots && slug in s.snapshot.homes)
    ensures Seating(s, c, 0, visit)
  {
    assert c.slugs[..0] == [];
  }

  lemma OneMoreSeated(s: State, c: Config, n: nat, visit: string)
    requires 0 < n <= |c.slugs| && s.current == Some(visit)
    requires forall slug :: slug in c.slugs ==> slug in s.slots && slug in s.snapshot.homes
    requires OnSlots(s.slots) && SlotsDiffer(s.slots, c.slugs) && Seating(s, c, n - 1, visit)
    ensures Seating(s, c, n, visit)
  {
    hide StandOnSlots, HaveSeats, Placed, SlotIndex, Seated, OnSlots;
    DifferentSlots(s.slots, c.slugs, n - 1);
    OneMoreSeat(s, c, n, visit);
    var db, slug := Seated(s, c, n - 1), c.slugs[n - 1];
    assert c.slugs[..n] == c.slugs[..n - 1] + [slug];
    OneStands(s.db.residents, db.residents, s.slots, c.slugs[..n - 1], slug);
    OneSits(s.db.visitors, db.visitors, s.slots, s.snapshot.homes, c.slugs[..n - 1], slug, visit);
  }

  lemma {:induction false} SeatsAreTaken(s: State, c: Config, n: nat, visit: string)
    requires n <= |c.slugs| && s.current == Some(visit)
    requires forall slug :: slug in c.slugs ==> slug in s.slots && slug in s.snapshot.homes
    requires OnSlots(s.slots) && SlotsDiffer(s.slots, c.slugs)
    ensures Seating(s, c, n, visit)
  {
    hide Seating, OnSlots, SlotsDiffer;
    if n == 0 {
      NobodySeated(s, c, visit);
    } else {
      SeatsAreTaken(s, c, n - 1, visit);
      OneMoreSeated(s, c, n, visit);
    }
  }

  // ---------------------------------------------------------------- the whole of trading

  /** Trading opens: the visit is there, every resident has a slot, and no seat is taken twice. */
  lemma OpensWithSeats(s: State, c: Config, visit: string)
    requires s.current == Some(visit) && visit in s.db.visits && OnSlots(s.slots) && !OpenTrading(s, c).raised
    ensures s.slots.Keys == (set r | r in c.slugs) && SlotsDiffer(s.slots, c.slugs)
    ensures forall r :: r in c.slugs ==> r in s.slots && r in s.snapshot.homes
    ensures forall r, k: nat :: r in c.slugs && IsSlot(s.slots[r], k) ==> (visit, k) !in s.db.visitors
    ensures forall k, r :: k in s.db.visitors && k.0 == visit && r in c.slugs ==>
              s.db.visitors[k].residentId != s.snapshot.homes[r].id
    ensures forall i, j :: 0 <= i < j < |c.slugs| ==> s.snapshot.homes[c.slugs[i]].id != s.snapshot.homes[c.slugs[j]].id
  {
    hide Seated;
    assert s.slots.Keys == set r | r in c.slugs;
    assert forall r :: r in c.slugs ==> r in s.slots.Keys;
    assert !SeatsClash(s, c);
    forall r, k: nat | r in c.slugs && IsSlot(s.slots[r], k) ensures (visit, k) !in s.db.visitors {
      SlotIndexIs(s.slots[r]);
      assert VisitorKey(s, r) == (visit, k);
    }
    forall i, j | 0 <= i < j < |c.slugs|
      ensures c.slugs[i] != c.slugs[j] && s.slots[c.slugs[i]] != s.slots[c.slugs[j]]
    {
      assert VisitorKey(s, c.slugs[i]) != VisitorKey(s, c.slugs[j]);
    }
  }

  /** What the stocking service is given, and what trading then leaves it at: when trading opens,
      each tracked resident stands on its slot and has, under the index of that slot, the one
      visitor row of its own in the visit, with nothing bought; everything else is as it was.
      Afterwards the visit is marked as stocked and settled. */
  lemma StockedFromSeats(s: State, c: Config, visit: string) returns (seats: Tables)
    requires s.current == Some(visit) && visit in s.db.visits && OnSlots(s.slots) && !OpenTrading(s, c).raised
    ensures seats == s.db.(residents := seats.residents, visitors := seats.visitors)
    ensures StandOnSlots(s.db.residents, seats.residents, s.slots, c.slugs)
    ensures HaveSeats(s.db.visitors, seats.visitors, s.slots, s.snapshot.homes, c.slugs, visit)
    ensures forall r, k ::
              r in c.slugs && k in seats.visitors && k.0 == visit
              && seats.visitors[k].residentId == s.snapshot.homes[r].id ==>
                IsSlot(s.slots[r], k.1)
    ensures var stocked := c.stock(seats, visit);
            && visit in stocked.visits
            && OpenTrading(s, c).state == s.(db := stocked.(visits :=
                 stocked.visits[visit := stocked.visits[visit].(phase := "trading", stocked := true, settled := true)]))
  {
    OpensWithSeats(s, c, visit);
    SeatsAreTaken(s, c, |c.slugs|, visit);
    assert c.slugs[..|c.slugs|] == c.slugs;
    seats := Seated(s, c, |c.slugs|);
    OwnSeatOnly(s, c, seats, visit);
    hide Seated, SeatsClash, StandOnSlots, HaveSeats, IsSlot;
  }

  lemma UntouchedRow(
    before: map<(string, nat), VisitorRow>, after: map<(string, nat), VisitorRow>, slots: map<string, Tile>,
    homes: map<string, Home>, slugs: seq<string>, k: (string, nat))
    requires HaveSeats(before, after, slots, homes, slugs, k.0)
    ensures NobodyAt(slots, slugs, k.1) ==> Agree(before, after, k)
  {
    assert k == (k.0, k.1);
  }

  lemma OwnSeatOnly(s: State, c: Config, seats: Tables, visit: string)
    requires forall r :: r in c.slugs ==> r in s.slots && r in s.snapshot.homes
    requires HaveSeats(s.db.visitors, seats.visitors, s.slots, s.snapshot.homes, c.slugs, visit)
    requires forall k, r :: k in s.db.visitors && k.0 == visit && r in c.slugs ==>
               s.db.visitors[k].residentId != s.snapshot.homes[r].id
    requires forall i, j :: 0 <= i < j < |c.slugs| ==>
               s.snapshot.homes[c.slugs[i]].id != s.snapshot.homes[c.slugs[j]].id
    ensures forall r, k ::
              r in c.slugs && k in seats.visitors && k.0 == visit
              && seats.visitors[k].residentId == s.snapshot.homes[r].id ==>
                IsSlot(s.slots[r], k.1)
  {
    forall r, k | r in c.slugs && k in seats.visitors && k.0 == visit
                  && seats.visitors[k].residentId == s.snapshot.homes[r].id
      ensures IsSlot(s.slots[r], k.1)
    {
      UntouchedRow(s.db.visitors, seats.visitors, s.slots, s.snapshot.homes, c.slugs, k);
      var q :| q in c.slugs && q in s.slots && IsSlot(s.slots[q], k.1);
      assert seats.visitors[(visit, k.1)] == VisitorRow(s.snapshot.homes[q].id, q, None);
      var i :| 0 <= i < |c.slugs| && c.slugs[i] == r;
      var j :| 0 <= j < |c.slugs| && c.slugs[j] == q;
      assert i == j;
    }
  }

  /** One purchase after another, each resident once, in order of the slots: all of them, or up to
      and including the one whose publishing raises. */
  ghost predicate BuysInTurn(c: Config, order: seq<string>, trail: seq<Tables>, visit: string) {
    && 0 < |trail| <= |order| + 1
    && forall i :: 0 <= i < |trail| - 1 ==> trail[i + 1] == c.buy(trail[i], order[i], visit)
  }

  ghost predicate InSlotOrder(order: seq<string>, slots: map<string, Tile>) {
    forall i, j, a: nat, b: nat ::
      0 <= i < j < |order| && order[i] in slots && order[j] in slots
      && IsSlot(slots[order[i]], a) && IsSlot(slots[order[j]], b) ==>
        a < b
  }

  lemma {:induction false} BoughtInTurn(db: Tables, c: Config, buyers: seq<string>, visit: string)
    returns (trail: seq<Tables>)
    ensures |trail| == |buyers| + 1 && BuysInTurn(c, buyers, trail, visit)
    ensures trail[0] == db && trail[|buyers|] == Bought(db, c, buyers, visit)
  {
    if buyers == [] {
      trail := [db];
    } else {
      var front := buyers[..|buyers| - 1];
      var earlier := BoughtInTurn(db, c, front, visit);
      trail := earlier + [c.buy(earlier[|front|], buyers[|buyers| - 1], visit)];
    }
  }

  lemma BuyersInOrder(c: Config, slots: map<string, Tile>)
    requires slots.Keys == (set r | r in c.slugs) && OnSlots(slots) && SlotsDiffer(slots, c.slugs)
    ensures InSlotOrder(Buyers(c, slots), slots) && multiset(Buyers(c, slots)) == multiset(c.slugs)
  {
    forall k: nat | k < 4 ensures Ascending(BuyersAt(c, slots, k), slots, k, k + 1) {
      AtMostOneAt(c, slots, k);
    }
    BuyersBag(c, slots);
    var order := Buyers(c, slots);
    hide BuyersAt, SlotsDiffer, SlotIndex, Ascending;
    var a, b, d, e := BuyersAt(c, slots, 0), BuyersAt(c, slots, 1), BuyersAt(c, slots, 2), BuyersAt(c, slots, 3);
    assert Ascending(a, slots, 0, 1) && Ascending(b, slots, 1, 2);
    assert Ascending(d, slots, 2, 3) && Ascending(e, slots, 3, 4);
    AscendingAdds(a, b, slots, 0, 1, 2);
    AscendingAdds(a + b, d, slots, 0, 2, 3);
    AscendingAdds(a + b + d, e, slots, 0, 3, 4);
    AscendingIsOrder(order, slots);
  }

  /** Slot indexes from `low` on and below `high`, each greater than the one before. */
  ghost predicate Ascending(order: seq<string>, slots: map<string, Tile>, low: nat, high: nat) {
    && (forall i :: 0 <= i < |order| ==> order[i] in slots && low <= SlotIndex(slots[order[i]]) < high)
    && forall i, j :: 0 <= i < j < |order| ==> SlotIndex(slots[order[i]]) < SlotIndex(slots[order[j]])
  }

  lemma AscendingAdds(a: seq<string>, b: seq<string>, slots: map<string, Tile>, low: nat, middle: nat, high: nat)
    requires low <= middle <= high && Ascending(a, slots, low, middle) && Ascending(b, slots, middle, high)
    ensures Ascending(a + b, slots, low, high)
  {
    hide SlotIndex;
  }

  lemma AscendingIsOrder(order: seq<string>, slots: map<string, Tile>)
    requires Ascending(order, slots, 0, 4)
    ensures InSlotOrder(order, slots)
  {
    forall i | 0 <= i < |order| ensures forall k :: IsSlot(slots[order[i]], k) ==> SlotIndex(slots[order[i]]) == k {
      SlotIndexIs(slots[order[i]]);
    }
    hide SlotIndex, IsSlot;
  }

  lemma BuyersBag(c: Config, slots: map<string, Tile>)
    requires slots.Keys == set r | r in c.slugs
    ensures multiset(Buyers(c, slots)) == multiset(c.slugs)
  {
    var order := Buyers(c, slots);
    forall r ensures multiset(order)[r] == multiset(c.slugs)[r] {
      WhereCount(c.slugs, SitsAt(slots, 0), r);
      WhereCount(c.slugs, SitsAt(slots, 1), r);
      WhereCount(c.slugs, SitsAt(slots, 2), r);
      WhereCount(c.slugs, SitsAt(slots, 3), r);
      assert r in c.slugs <==> r in slots.Keys;
    }
  }

  lemma AtMostOneAt(c: Config, slots: map<string, Tile>, k: nat)
    requires OnSlots(slots) && SlotsDiffer(slots, c.slugs) && k < 4
    ensures Ascending(BuyersAt(c, slots, k), slots, k, k + 1)
  {
    var here := BuyersAt(c, slots, k);
    forall r | r in here ensures r in c.slugs && r in slots && SlotIndex(slots[r]) == k {
      WhereMember(c.slugs, SitsAt(slots, k), r);
    }
    OneOfMany(c.slugs, slots, k);
  }

  lemma {:induction false} OneOfMany(slugs: seq<string>, slots: map<string, Tile>, k: nat)
    requires OnSlots(slots) && SlotsDiffer(slots, slugs) && k < 4
    ensures |Where(slugs, SitsAt(slots, k))| <= 1
  {
    if slugs != [] {
      var front, last := slugs[..|slugs| - 1], slugs[|slugs| - 1];
      OneOfMany(front, slots, k);
      if SitsAt(slots, k)(last) && Where(front, SitsAt(slots, k)) != [] {
        var r := Where(front, SitsAt(slots, k))[0];
        WhereMember(front, SitsAt(slots, k), r);
        var i :| 0 <= i < |front| && front[i] == r;
        assert slugs[i] == r;
        SameIndexSameSlot(slots[r], slots[last]);
      }
    }
  }

  lemma SameIndexSameSlot(a: Tile, b: Tile)
    requires exists j, k :: IsSlot(a, j) && IsSlot(b, k)
    requires SlotIndex(a) == SlotIndex(b)
    ensures a == b
  {
    SlotIndexIs(a);
    SlotIndexIs(b);
  }

  lemma TradeOnceOpen(s: State, c: Config, publishFailsAfter: Option<nat>, visit: string)
    requires s.current == Some(visit) && visit in s.db.visits && !OpenTrading(s, c).raised
    ensures var open, buyers := OpenTrading(s, c).state, Buyers(c, s.slots);
            var raised := publishFailsAfter.Some? && publishFailsAfter.value < |buyers|;
            var n := if raised then publishFailsAfter.value + 1 else |buyers|;
            Trade(s, c, publishFailsAfter) == Step(open.(db := Bought(open.db, c, buyers[..n], visit)), raised)
  {
    hide OpenTrading, Buyers, Bought;
  }

  /** Trading that opens lets every tracked resident buy once, in order of the slots, each purchase
      on the tables the one before left, until all have bought or a publishing raises. */
  lemma PurchasesInSlotOrder(s: State, c: Config, publishFailsAfter: Option<nat>, visit: string)
    returns (order: seq<string>, trail: seq<Tables>)
    requires s.current == Some(visit) && visit in s.db.visits && OnSlots(s.slots) && !OpenTrading(s, c).raised
    ensures multiset(order) == multiset(c.slugs) && InSlotOrder(order, s.slots)
    ensures BuysInTurn(c, order, trail, visit) && trail[0] == OpenTrading(s, c).state.db
    ensures var done := Trade(s, c, publishFailsAfter);
            && done.state == OpenTrading(s, c).state.(db := trail[|trail| - 1])
            && (done.raised <==> publishFailsAfter.Some? && publishFailsAfter.value < |c.slugs|)
            && |trail| == 1 + if done.raised then publishFailsAfter.value + 1 else |c.slugs|
  {
    hide OpenTrading, Buyers, InSlotOrder, OnSlots, SlotsDiffer, IsSlot, Trade, Bought, BuysInTurn;
    OpensWithSeats(s, c, visit);
    BuyersInOrder(c, s.slots);
    TradeOnceOpen(s, c, publishFailsAfter, visit);
    order := Buyers(c, s.slots);
    BagLength(order, c.slugs);
    var db := OpenTrading(s, c).state.db;
    var fails := publishFailsAfter.Some? && publishFailsAfter.value < |order|;
    var n := if fails then publishFailsAfter.value + 1 else |order|;
    trail := BoughtInTurn(db, c, order[..n], visit);
    BeginsAlike(c, order, n, trail, visit);
  }

  lemma BeginsAlike(c: Config, order: seq<string>, n: nat, trail: seq<Tables>, visit: string)
    requires n <= |order| && BuysInTurn(c, order[..n], trail, visit)
    ensures BuysInTurn(c, order, trail, visit)
  {
  }

  // ---------------------------------------------------------------- slots along a run

  lemma HandleSlots(s: State, c: Config, f: Frame, publishFailsAfter: Option<nat>)
    requires OnSlots(s.slots)
    ensures OnSlots(Handle(s, c, f, publishFailsAfter).state.slots)
  {
    hide Seated, SeatsClash, Bought, Buyers, Placed, SentHome, Withdrawn;
    if f.ResidentMove? && f.target.Some? && f.target.value in VISITOR_SLOTS {
      TheFourSlots(f.target.value);
    }
  }

  lemma TheFourSlots(tile: Tile)
    requires tile in VISITOR_SLOTS
    ensures exists k :: IsSlot(tile, k)
  {
    var k :| 0 <= k < |VISITOR_SLOTS| && VISITOR_SLOTS[k] == tile;
    assert IsSlot(tile, k);
  }

  /** Whatever frames arrive, the slots noted are slots of the market. */
  lemma {:induction false} RunSlots(s: State, c: Config, fs: seq<(Frame, Option<nat>)>)
    requires OnSlots(s.slots)
    ensures OnSlots(HandleAll(s, c, fs).state.slots)
  {
    hide OnSlots, Handle;
    if fs != [] {
      RunSlots(s, c, fs[..|fs| - 1]);
      HandleSlots(HandleAll(s, c, fs[..|fs| - 1]).state, c, fs[|fs| - 1].0, fs[|fs| - 1].1);
    }
  }
}
