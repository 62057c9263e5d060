/** The housing backfill: residents without a home get the first place that is free. */
module Housing {
  import opened Bags

  datatype Row = Row(id: string, home: Option<string>, player: bool)

  /** A location and how many people fit in it. */
  datatype House = House(name: string, capacity: nat)

  const HOUSING_ORDER: seq<House> := [
    House("house_a", 1), House("house_b", 1), House("house_c", 1),
    House("house_d", 1), House("house_e", 1), House("house_f", 1),
    House("apt_star", 5), House("apt_moon", 5), House("apt_dawn", 5)
  ]

  type Occupancy = map<string, nat>

  function At(occupied: Occupancy, name: string): nat {
    if name in occupied then occupied[name] else 0
  }

  predicate Needs(r: Row) { r.home.None? && !r.player }

  /** How many of the rows live at `name`. */
  function Living(rows: seq<Row>, name: string): nat {
    if rows == [] then 0 else Living(rows[..|rows| - 1], name) + if rows[|rows| - 1].home == Some(name) then 1 else 0
  }

  function FirstFree(order: seq<House>, occupied: Occupancy): Option<string> {
    if order == [] then None
    else if At(occupied, order[0].name) < order[0].capacity then Some(order[0].name)
    else FirstFree(order[1..], occupied)
  }

  /** The rows after the backfill, and what it takes to be occupied. */
  function Housed(rows: seq<Row>, order: seq<House>, occupied: Occupancy): (seq<Row>, Occupancy) {
    if rows == [] then ([], occupied)
    else
      var (front, now) := Housed(rows[..|rows| - 1], order, occupied);
      var last := rows[|rows| - 1];
      var free := FirstFree(order, now);
      if Needs(last) && free.Some?
      then (front + [last.(home := free)], now[free.value := At(now, free.value) + 1])
      else (front + [last], now)
  }

  /** The places left. */
  function FreePlaces(order: seq<House>, occupied: Occupancy): nat {
    if order == [] then 0
    else
      var here := order[0].capacity - At(occupied, order[0].name);
      (if here > 0 then here else 0) + FreePlaces(order[1..], occupied)
  }

  function Homeless(rows: seq<Row>): nat {
    if rows == [] then 0 else Homeless(rows[..|rows| - 1]) + if Needs(rows[|rows| - 1]) then 1 else 0
  }

  ghost predicate DistinctNames(order: seq<House>) {
    forall i, j :: 0 <= i < j < |order| ==> order[i].name != order[j].name
  }

  lemma {:induction false} FirstFreeIsFree(order: seq<House>, occupied: Occupancy)
    ensures FirstFree(order, occupied).Some? <==> FreePlaces(order, occupied) > 0
    ensures FirstFree(order, occupied).Some? ==>
              exists i :: 0 <= i < |order| && order[i].name == FirstFree(order, occupied).value
                          && At(occupied, order[i].name) < order[i].capacity
                          && forall j :: 0 <= j < i ==> At(occupied, order[j].name) >= order[j].capacity
  {
    if order != [] && At(occupied, order[0].name) >= order[0].capacity {
      FirstFreeIsFree(order[1..], occupied);
      if FirstFree(order[1..], occupied).Some? {
        var i :| 0 <= i < |order[1..]| && order[1..][i].name == FirstFree(order, occupied).value
                 && At(occupied, order[1..][i].name) < order[1..][i].capacity
                 && forall j :: 0 <= j < i ==> At(occupied, order[1..][j].name) >= order[1..][j].capacity;
        assert order[i + 1] == order[1..][i];
        forall j | 0 <= j < i + 1 ensures At(occupied, order[j].name) >= order[j].capacity {
          if j > 0 {
            assert order[j] == order[1..][j - 1];
          }
        }
      }
    }
  }

  /** Moving one person into the first free place uses up exactly one place. */
  lemma {:induction false} OnePlaceLess(order: seq<House>, occupied: Occupancy)
    requires DistinctNames(order) && FirstFree(order, occupied).Some?
    ensures var name := FirstFree(order, occupied).value;
            FreePlaces(order, occupied[name := At(occupied, name) + 1]) == FreePlaces(order, occupied) - 1
  {
    var name := FirstFree(order, occupied).value;
    if order[0].name == name {
      SamePlaces(order[1..], occupied, name, At(occupied, name) + 1);
      if At(occupied, name) >= order[0].capacity {
        FirstFreeIsFree(order[1..], occupied);
      }
    } else {
      OnePlaceLess(order[1..], occupied);
    }
  }

  lemma {:induction false} SamePlaces(order: seq<House>, occupied: Occupancy, name: string, count: nat)
    requires forall i :: 0 <= i < |order| ==> order[i].name != name
    ensures FreePlaces(order, occupied[name := count]) == FreePlaces(order, occupied)
  {
    if order != [] {
      assert order[0].name != name;
      SamePlaces(order[1..], occupied, name, count);
    }
  }

  /** Whoever is housed at `name` beyond the first tenants is counted. */
  lemma {:induction false} OccupancyIsCounted(rows: seq<Row>, order: seq<House>, occupied: Occupancy, name: string)
    ensures var (after, now) := Housed(rows, order, occupied);
            At(now, name) - At(occupied, name) == Living(after, name) - Living(rows, name)
  {
    if rows != [] {
      OccupancyIsCounted(rows[..|rows| - 1], order, occupied, name);
      var (front, now) := Housed(rows[..|rows| - 1], order, occupied);
      var (after, _) := Housed(rows, order, occupied);
      assert after[..|after| - 1] == front;
    }
  }

  function Most(a: nat, b: nat): nat { if a < b then b else a }

  function Least(a: nat, b: nat): nat { if a < b then a else b }

  function CapacityOf(order: seq<House>, name: string): nat {
    if order == [] then 0 else if order[0].name == name then order[0].capacity else CapacityOf(order[1..], name)
  }

  lemma {:induction false} CapacityOfHouse(order: seq<House>, i: nat)
    requires DistinctNames(order) && i < |order|
    ensures CapacityOf(order, order[i].name) == order[i].capacity
  {
    if i > 0 {
      CapacityOfHouse(order[1..], i - 1);
      assert order[0].name != order[i].name;
    }
  }

  /** No place is filled above its capacity, or above what it already held; a place outside the
      list is left alone. */
  lemma {:induction false} NeverOverfull(rows: seq<Row>, order: seq<House>, occupied: Occupancy, name: string)
    requires DistinctNames(order)
    ensures At(occupied, name) <= At(Housed(rows, order, occupied).1, name)
            <= Most(CapacityOf(order, name), At(occupied, name))
  {
    if rows != [] {
      var front := rows[..|rows| - 1];
      NeverOverfull(front, order, occupied, name);
      var now := Housed(front, order, occupied).1;
      FirstFreeIsFree(order, now);
      if FirstFree(order, now) == Some(name) {
        var i :| 0 <= i < |order| && order[i].name == name && At(now, name) < order[i].capacity;
        CapacityOfHouse(order, i);
      }
    }
  }

  /** Only residents without a home are given one; nothing else about anyone changes. */
  lemma {:induction false} OnlyTheHomelessMove(rows: seq<Row>, order: seq<House>, occupied: Occupancy, i: nat)
    requires i < |rows|
    ensures |Housed(rows, order, occupied).0| == |rows|
    ensures var after := Housed(rows, order, occupied).0[i];
            && after.id == rows[i].id && after.player == rows[i].player
            && (rows[i].home.Some? || rows[i].player ==> after == rows[i])
            && (after.home.Some? && rows[i].home.None? ==> exists h :: h in order && Some(h.name) == after.home)
  {
    var n := |rows| - 1;
    var (front, now) := Housed(rows[..n], order, occupied);
    HousedLength(rows[..n], order, occupied);
    if i < n {
      OnlyTheHomelessMove(rows[..n], order, occupied, i);
    } else {
      FirstFreeIsFree(order, now);
      if Needs(rows[n]) && FirstFree(order, now).Some? {
        var k :| 0 <= k < |order| && order[k].name == FirstFree(order, now).value;
        assert order[k] in order;
      }
    }
  }

  lemma {:induction false} HousedLength(rows: seq<Row>, order: seq<House>, occupied: Occupancy)
    ensures |Housed(rows, order, occupied).0| == |rows|
  {
    if rows != [] {
      HousedLength(rows[..|rows| - 1], order, occupied);
    }
  }

  /** Exactly as many are housed as there are people or places: nobody stays homeless while a
      place is free, and no place stays free while somebody is homeless. */
  lemma {:induction false} HousesAsManyAsFit(rows: seq<Row>, order: seq<House>, occupied: Occupancy)
    requires DistinctNames(order)
    ensures var (after, now) := Housed(rows, order, occupied);
            var housed := Least(Homeless(rows), FreePlaces(order, occupied));
            && Homeless(after) == Homeless(rows) - housed
            && FreePlaces(order, now) == FreePlaces(order, occupied) - housed
  {
    hide FreePlaces, FirstFree, DistinctNames, Housed, Homeless, At;
    if rows == [] {
      NobodyToHouse(order, occupied);
    } else {
      var front, last := rows[..|rows| - 1], rows[|rows| - 1];
      HousesAsManyAsFit(front, order, occupied);
      var (before, now) := Housed(front, order, occupied);
      FirstFreeIsFree(order, now);
      if FirstFree(order, now).Some? {
        OnePlaceLess(order, now);
      }
      assert rows == front + [last];
      HousedOneMore(front, last, order, occupied);
      HomelessOneMore(front, last);
      HomelessOneMore(before, last);
      HomelessOneMore(before, last.(home := FirstFree(order, now)));
    }
  }

  lemma NobodyToHouse(order: seq<House>, occupied: Occupancy)
    ensures Housed([], order, occupied) == ([], occupied) && Homeless([]) == 0
  {
  }

  lemma HousedOneMore(front: seq<Row>, last: Row, order: seq<House>, occupied: Occupancy)
    ensures var (before, now) := Housed(front, order, occupied);
            var free := FirstFree(order, now);
            Housed(front + [last], order, occupied) ==
              if Needs(last) && free.Some?
              then (before + [last.(home := free)], now[free.value := At(now, free.value) + 1])
              else (before + [last], now)
  {
    assert (front + [last])[..|front|] == front;
  }

  lemma HomelessOneMore(rows: seq<Row>, last: Row)
    ensures Homeless(rows + [last]) == Homeless(rows) + if Needs(last) then 1 else 0
  {
    assert (rows + [last])[..|rows|] == rows;
  }

  // ---------------------------------------------------------------- the migration

  ghost predicate Counts(occupied: Occupancy, rows: seq<Row>) {
    forall name :: At(occupied, name) == Living(rows, name)
  }

  class Town {
    var residents: seq<Row>

    constructor (residents: seq<Row>)
      ensures this.residents == residents
    {
      this.residents := residents;
    }

    method Occupied() returns (occupied: Occupancy)
      ensures Counts(occupied, residents)
    {
      occupied := map[];
      for i := 0 to |residents|
        invariant Counts(occupied, residents[..i])
      {
        assert residents[..i + 1][..i] == residents[..i];
        var home := residents[i].home;
        if home.Some? {
          occupied := occupied[home.value := At(occupied, home.value) + 1];
        }
      }
      assert residents[..|residents|] == residents;
    }

    method FindPlace(order: seq<House>, occupied: Occupancy) returns (place: Option<string>)
      ensures place == FirstFree(order, occupied)
    {
      hide At;
      for j := 0 to |order|
        invariant FirstFree(order, occupied) == FirstFree(order[j..], occupied)
      {
        var house := order[j];
        if At(occupied, house.name) < house.capacity {
          return Some(house.name);
        }
      }
      return None;
    }

    /** Residents are in order of creation. */
    method Upgrade(order: seq<House>) returns (ghost counted: Occupancy)
      modifies this
      ensures Counts(counted, old(residents))
      ensures residents == Housed(old(residents), order, counted).0
    {
      hide Counts, At, FirstFree, Housed;
      var occupied := Occupied();
      counted := occupied;
      var rows := residents;
      NobodyToHouse(order, counted);
      ghost var done: seq<Row> := [];
      assert rows[..0] == [];
      for i := 0 to |rows|
        invariant |done| == i && (done, occupied) == Housed(rows[..i], order, counted)
        invariant |residents| == |rows| && (forall j :: 0 <= j < i ==> residents[j] == done[j])
        invariant forall j :: i <= j < |rows| ==> residents[j] == rows[j]
      {
        HousedOneMore(rows[..i], rows[i], order, counted);
        assert rows[..i + 1] == rows[..i] + [rows[i]];
        var row := rows[i];
        if Needs(row) {
          var place := FindPlace(order, occupied);
          if place.Some? {
            occupied := occupied[place.value := At(occupied, place.value) + 1];
            row := row.(home := place);
            residents := residents[i := row];
          }
        }
        done := done + [row];
      }
      assert rows[..|rows|] == rows && residents == done;
    }
  }

  ghost predicate Full(occupied: Occupancy, place: string, capacity: nat) { At(occupied, place) >= capacity }

  /** In the town the six houses for one fill up first, in order, and then the three blocks of five. */
  lemma TownFillsInOrder(occupied: Occupancy)
    ensures var places := ["house_a", "house_b", "house_c", "house_d", "house_e", "house_f",
                           "apt_star", "apt_moon", "apt_dawn"];
            match FirstFree(HOUSING_ORDER, occupied)
            case None => forall i :: 0 <= i < 9 ==> Full(occupied, places[i], if i < 6 then 1 else 5)
            case Some(place) =>
              exists i :: 0 <= i < 9 && place == places[i] && !Full(occupied, places[i], if i < 6 then 1 else 5)
                && forall j :: 0 <= j < i ==> Full(occupied, places[j], if j < 6 then 1 else 5)
  {
    hide FirstFree, At;
    var places := ["house_a", "house_b", "house_c", "house_d", "house_e", "house_f",
                   "apt_star", "apt_moon", "apt_dawn"];
    var order := HOUSING_ORDER;
    assert |order| == 9 && forall i :: 0 <= i < 9 ==> order[i] == House(places[i], if i < 6 then 1 else 5);
    FirstFreeIsFree(order, occupied);
    NoneIsFull(order, occupied);
    if FirstFree(order, occupied).Some? {
      var i :| 0 <= i < |order| && order[i].name == FirstFree(order, occupied).value
               && At(occupied, order[i].name) < order[i].capacity
               && forall j :: 0 <= j < i ==> At(occupied, order[j].name) >= order[j].capacity;
      assert FirstFree(order, occupied).value == places[i];
    }
  }

  lemma {:induction false} NoneIsFull(order: seq<House>, occupied: Occupancy)
    ensures FirstFree(order, occupied).None? ==>
              forall i :: 0 <= i < |order| ==> At(occupied, order[i].name) >= order[i].capacity
  {
    if order != [] {
      NoneIsFull(order[1..], occupied);
      assert forall i :: 1 <= i < |order| ==> order[i] == order[1..][i - 1];
    }
  }

  /** What the migration does to the town as a whole. */
  lemma BackfillIsSound(rows: seq<Row>, counted: Occupancy, name: string)
    requires Counts(counted, rows)
    ensures DistinctNames(HOUSING_ORDER)
    ensures var after := Housed(rows, HOUSING_ORDER, counted).0;
            && Living(rows, name) <= Living(after, name) <= Most(CapacityOf(HOUSING_ORDER, name), Living(rows, name))
            && Homeless(after) == Homeless(rows) - Least(Homeless(rows), FreePlaces(HOUSING_ORDER, counted))
  {
    hide Living, Housed, CapacityOf, FreePlaces;
    OccupancyIsCounted(rows, HOUSING_ORDER, counted, name);
    NeverOverfull(rows, HOUSING_ORDER, counted, name);
    HousesAsManyAsFit(rows, HOUSING_ORDER, counted);
  }
}
