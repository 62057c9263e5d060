/** The relation table and its concurrent upserts.

    A bump tries an update, on a miss an insert, and when another worker inserted the pair in
    between, the update again.  Every interleaving of any number of workers and decay passes is
    shown to do what atomic upserts, one after another, would have done. */
module Relations {
  import opened Lexicographic
  import opened Calibration
  import opened Bags

  type Pair = (string, string)

  datatype Cell = Cell(
    aType: string, bType: string, familiarity: real, affinity: real, interactions: nat, seen: real)

  datatype Row = Row(pair: Pair, cell: Cell)

  datatype Bump = Bump(one: string, other: string, oneType: string, otherType: string, familiarity: real,
                       affinity: real, at: real)

  /** The smaller id first. */
  function CanonicalPair(one: string, other: string): Pair {
    if one == other || Precedes(one, other) then (one, other) else (other, one)
  }

  function PairOf(b: Bump): Pair { CanonicalPair(b.one, b.other) }

  function Clamp(x: real, low: real, high: real): real { if x > high then high else if x < low then low else x }

  function Touched(cell: Cell, b: Bump): Cell {
    cell.(familiarity := Clamp(cell.familiarity + b.familiarity, 0.0, 1.0),
          affinity := Clamp(cell.affinity + b.affinity, -1.0, 1.0), interactions := cell.interactions + 1, seen := b.at)
  }

  /** The type travels with its id. */
  function NewCell(b: Bump): Cell {
    var first := PairOf(b) == (b.one, b.other);
    Cell(if first then b.oneType else b.otherType, if first then b.otherType else b.oneType,
         Clamp(b.familiarity, 0.0, 1.0), Clamp(b.affinity, -1.0, 1.0), 1, b.at)
  }

  function Faded(cell: Cell, pass: Decay): Cell {
    if cell.seen < pass.cutoff
    then cell.(familiarity := cell.familiarity * pass.familiarity, affinity := cell.affinity * pass.affinity)
    else cell
  }

  datatype Decay = Decay(cutoff: real, familiarity: real, affinity: real)

  // ---------------------------------------------------------------- one after another

  datatype Applied = Bumped(worker: nat, bump: Bump) | Decayed(pass: Decay)

  function Upsert(table: map<Pair, Cell>, b: Bump): map<Pair, Cell> {
    table[PairOf(b) := if PairOf(b) in table then Touched(table[PairOf(b)], b) else NewCell(b)]
  }

  function Fade(table: map<Pair, Cell>, pass: Decay): map<Pair, Cell> { map p | p in table :: Faded(table[p], pass) }

  function Apply(table: map<Pair, Cell>, a: Applied): map<Pair, Cell> {
    if a.Bumped? then Upsert(table, a.bump) else Fade(table, a.pass)
  }

  /** The table after atomic upserts and decay passes in the order of the log. */
  function InTurn(log: seq<Applied>): map<Pair, Cell> {
    if log == [] then map[]
    else Apply(InTurn(log[..|log| - 1]), log[|log| - 1])
  }

  /** The value in the range that is nearest to `x`. */
  ghost predicate Nearest(x: real, low: real, high: real, r: real) {
    low <= r <= high && (low <= x <= high ==> r == x) && (x < low ==> r == low) && (x > high ==> r == high)
  }

  /** What a bump does to the table: it touches the row of the two ids, smaller id first, and no
      other; a new row takes each id's own type, an old one keeps its types. */
  lemma UpsertMeans(table: map<Pair, Cell>, b: Bump)
    requires b.one != b.other
    ensures var p := if Precedes(b.one, b.other) then (b.one, b.other) else (b.other, b.one);
            var after := Upsert(table, b);
            && Precedes(p.0, p.1)
            && after.Keys == table.Keys + {p}
            && (forall q :: q in table && q != p ==> after[q] == table[q])
            && after[p].seen == b.at
            && (if p in table then
                  && Nearest(table[p].familiarity + b.familiarity, 0.0, 1.0, after[p].familiarity)
                  && Nearest(table[p].affinity + b.affinity, -1.0, 1.0, after[p].affinity)
                  && after[p].interactions == table[p].interactions + 1
                  && after[p].aType == table[p].aType && after[p].bType == table[p].bType
                else
                  && Nearest(b.familiarity, 0.0, 1.0, after[p].familiarity)
                  && Nearest(b.affinity, -1.0, 1.0, after[p].affinity)
                  && after[p].interactions == 1
                  && after[p].aType == (if p.0 == b.one then b.oneType else b.otherType)
                  && after[p].bType == (if p.1 == b.one then b.oneType else b.otherType))
  {
    PrecedesOneWay(b.one, b.other);
  }

  /** It does not matter from which side a pair is bumped. */
  lemma UpsertFromEitherSide(table: map<Pair, Cell>, b: Bump)
    requires b.one != b.other
    ensures Upsert(table, b) == Upsert(table, b.(one := b.other, other := b.one, oneType := b.otherType,
                                                 otherType := b.oneType))
  {
    PrecedesOneWay(b.one, b.other);
  }

  /** A decay pass scales the rows last seen before its cutoff, and touches nothing else. */
  lemma FadeMeans(table: map<Pair, Cell>, pass: Decay, p: Pair)
    ensures Fade(table, pass).Keys == table.Keys
    ensures p in table ==>
              var before, after := table[p], Fade(table, pass)[p];
              && (before.seen >= pass.cutoff ==> after == before)
              && (before.seen < pass.cutoff ==>
                    && after.familiarity == before.familiarity * pass.familiarity
                    && after.affinity == before.affinity * pass.affinity)
              && after.interactions == before.interactions && after.seen == before.seen
              && after.aType == before.aType && after.bType == before.bType
  {
  }

  // ---------------------------------------------------------------- interleaved

  /** `Missed`: the update matched no row.  `Refused`: the insert met the unique constraint.
      `Lost`: the second update matched no row either. */
  datatype Phase = Ready | Missed | Refused | Done | Skipped | Lost

  datatype Worker = Worker(bump: Bump, phase: Phase)

  datatype State = State(rows: seq<Row>, workers: seq<Worker>, log: seq<Applied>)

  datatype Event = Begin(bump: Bump) | Proceed(worker: nat) | Pass(pass: Decay)

  predicate Present(rows: seq<Row>, p: Pair) { exists i :: 0 <= i < |rows| && rows[i].pair == p }

  function UpdateRows(rows: seq<Row>, b: Bump): (r: seq<Row>)
    ensures |r| == |rows|
    ensures forall i :: 0 <= i < |rows| ==>
              r[i].pair == rows[i].pair
                  && r[i].cell == if rows[i].pair == PairOf(b) then Touched(rows[i].cell, b) else rows[i].cell
  {
    if rows == [] then []
    else
      var last := rows[|rows| - 1];
      UpdateRows(rows[..|rows| - 1], b)
          + [if last.pair == PairOf(b) then Row(last.pair, Touched(last.cell, b)) else last]
  }

  function FadeRows(rows: seq<Row>, pass: Decay): (r: seq<Row>)
    ensures |r| == |rows|
    ensures forall i :: 0 <= i < |rows| ==> r[i] == Row(rows[i].pair, Faded(rows[i].cell, pass))
  {
    if rows == [] then []
    else
      var last := rows[|rows| - 1];
      FadeRows(rows[..|rows| - 1], pass) + [Row(last.pair, Faded(last.cell, pass))]
  }

  function Entering(s: State, i: nat, phase: Phase): State
    requires i < |s.workers|
  {
    s.(workers := s.workers[i := s.workers[i].(phase := phase)])
  }

  /** The bump takes effect on the rows given. */
  function Applying(s: State, i: nat, rows: seq<Row>): State
    requires i < |s.workers|
  {
    Entering(s, i, Done).(rows := rows, log := s.log + [Bumped(i, s.workers[i].bump)])
  }

  function Advance(s: State, i: nat): State
    requires i < |s.workers|
  {
    var b := s.workers[i].bump;
    match s.workers[i].phase
    case Ready =>
      if b.one == b.other then Entering(s, i, Skipped)
      else if Present(s.rows, PairOf(b)) then Applying(s, i, UpdateRows(s.rows, b))
      else Entering(s, i, Missed)
    case Missed =>
      if Present(s.rows, PairOf(b)) then Entering(s, i, Refused)
      else Applying(s, i, s.rows + [Row(PairOf(b), NewCell(b))])
    case Refused =>
      if Present(s.rows, PairOf(b)) then Applying(s, i, UpdateRows(s.rows, b)) else Entering(s, i, Lost)
    case _ => s
  }

  function Next(s: State, e: Event): State {
    match e
    case Begin(b) => s.(workers := s.workers + [Worker(b, Ready)])
    case Proceed(i) => if i < |s.workers| then Advance(s, i) else s
    case Pass(pass) => s.(rows := FadeRows(s.rows, pass), log := s.log + [Decayed(pass)])
  }

  function After(events: seq<Event>): State {
    if events == [] then State([], [], []) else Next(After(events[..|events| - 1]), events[|events| - 1])
  }

  // ---------------------------------------------------------------- what every interleaving keeps

  /** One row a pair, the smaller id first. */
  ghost predicate Keyed(rows: seq<Row>) {
    && (forall i :: 0 <= i < |rows| ==> Precedes(rows[i].pair.0, rows[i].pair.1))
    && (forall i, j :: 0 <= i < j < |rows| ==> rows[i].pair != rows[j].pair)
  }

  ghost predicate Mirrors(rows: seq<Row>, table: map<Pair, Cell>) {
    && (forall i :: 0 <= i < |rows| ==> rows[i].pair in table && table[rows[i].pair] == rows[i].cell)
    && (forall p :: p in table ==> Present(rows, p))
  }

  ghost predicate Logged(workers: seq<Worker>, log: seq<Applied>) {
    && (forall k :: 0 <= k < |log| && log[k].Bumped? ==>
          log[k].worker < |workers| && workers[log[k].worker] == Worker(log[k].bump, Done))
    && (forall i :: 0 <= i < |workers| && workers[i].phase == Done ==>
        exists k :: 0 <= k < |log| && log[k] == Bumped(i, workers[i].bump))
    && (forall j, k :: 0 <= j < k < |log| && log[j].Bumped? && log[k].Bumped? ==> log[j].worker != log[k].worker)
  }

  /** A refused insert met a row, and rows are never deleted. */
  ghost predicate NoneLost(s: State) {
    forall i :: 0 <= i < |s.workers| ==>
      && s.workers[i].phase != Lost
      && (s.workers[i].phase == Refused ==> Present(s.rows, PairOf(s.workers[i].bump)))
      && (s.workers[i].phase in {Missed, Refused} ==> s.workers[i].bump.one != s.workers[i].bump.other)
  }

  ghost predicate Sound(s: State) {
    Keyed(s.rows) && Mirrors(s.rows, InTurn(s.log)) && Logged(s.workers, s.log) && NoneLost(s)
  }

  lemma UpdateMirrors(rows: seq<Row>, table: map<Pair, Cell>, b: Bump)
    requires Mirrors(rows, table) && Keyed(rows) && Present(rows, PairOf(b))
    ensures Mirrors(UpdateRows(rows, b), Upsert(table, b)) && Keyed(UpdateRows(rows, b))
  {
    hide Touched, NewCell, CanonicalPair, Precedes;
    var after := UpdateRows(rows, b);
    assert PairOf(b) in table;
    SamePairs(rows, after);
  }

  /** Tables with the same pairs in the same places. */
  lemma SamePairs(rows: seq<Row>, after: seq<Row>)
    requires |after| == |rows| && forall i :: 0 <= i < |rows| ==> after[i].pair == rows[i].pair
    ensures forall p :: Present(rows, p) <==> Present(after, p)
    ensures Keyed(rows) ==> Keyed(after)
  {
    hide Precedes;
    forall p ensures Present(rows, p) <==> Present(after, p) {
      if i :| 0 <= i < |rows| && rows[i].pair == p {
        assert after[i].pair == p;
      }
      if i :| 0 <= i < |after| && after[i].pair == p {
        assert rows[i].pair == p;
      }
    }
  }

  lemma InsertMirrors(rows: seq<Row>, table: map<Pair, Cell>, b: Bump)
    requires Mirrors(rows, table) && Keyed(rows) && !Present(rows, PairOf(b)) && b.one != b.other
    ensures var after := rows + [Row(PairOf(b), NewCell(b))]; Mirrors(after, Upsert(table, b)) && Keyed(after)
  {
    hide NewCell;
    var after := rows + [Row(PairOf(b), NewCell(b))];
    PrecedesOneWay(b.one, b.other);
    assert after[|rows|].pair == PairOf(b);
    forall p | p in Upsert(table, b) ensures Present(after, p) {
      if p != PairOf(b) {
        var i :| 0 <= i < |rows| && rows[i].pair == p;
        assert after[i].pair == p;
      }
    }
  }

  lemma FadeMirrors(rows: seq<Row>, table: map<Pair, Cell>, pass: Decay)
    requires Mirrors(rows, table) && Keyed(rows)
    ensures Mirrors(FadeRows(rows, pass), Fade(table, pass)) && Keyed(FadeRows(rows, pass))
  {
    hide Faded, Precedes;
    SamePairs(rows, FadeRows(rows, pass));
  }

  lemma LogsOneMore(workers: seq<Worker>, log: seq<Applied>, i: nat)
    requires i < |workers| && Logged(workers, log) && workers[i].phase != Done
    ensures Logged(workers[i := workers[i].(phase := Done)], log + [Bumped(i, workers[i].bump)])
  {
    var after, logged := workers[i := workers[i].(phase := Done)], log + [Bumped(i, workers[i].bump)];
    forall j | 0 <= j < |after| && after[j].phase == Done
      ensures exists k :: 0 <= k < |logged| && logged[k] == Bumped(j, after[j].bump) {
      if j == i {
        assert logged[|log|] == Bumped(i, after[i].bump);
      } else {
        var k :| 0 <= k < |log| && log[k] == Bumped(j, workers[j].bump);
        assert logged[k] == log[k];
      }
    }
  }

  lemma LogKept(workers: seq<Worker>, log: seq<Applied>, i: nat, phase: Phase)
    requires i < |workers| && Logged(workers, log) && workers[i].phase != Done && phase != Done
    ensures Logged(workers[i := workers[i].(phase := phase)], log)
  {
    forall k | 0 <= k < |log| && log[k].Bumped? ensures log[k].worker != i {
    }
  }

  lemma InTurnOneMore(log: seq<Applied>, a: Applied)
    ensures InTurn(log + [a]) == Apply(InTurn(log), a)
  {
    assert (log + [a])[..|log|] == log;
  }

  /** Rows keep their pairs. */
  ghost predicate Grows(rows: seq<Row>, after: seq<Row>) { forall p :: Present(rows, p) ==> Present(after, p) }

  lemma UpdateGrows(rows: seq<Row>, b: Bump)
    ensures Grows(rows, UpdateRows(rows, b)) && Grows(rows, rows + [Row(PairOf(b), NewCell(b))])
  {
    forall p | Present(rows, p)
      ensures Present(UpdateRows(rows, b), p) && Present(rows + [Row(PairOf(b), NewCell(b))], p) {
      var i :| 0 <= i < |rows| && rows[i].pair == p;
      assert UpdateRows(rows, b)[i].pair == p && (rows + [Row(PairOf(b), NewCell(b))])[i].pair == p;
    }
  }

  lemma ApplyingSound(s: State, i: nat, rows: seq<Row>)
    requires Sound(s) && i < |s.workers| && s.workers[i].phase != Done
    requires Keyed(rows) && Mirrors(rows, Upsert(InTurn(s.log), s.workers[i].bump)) && Grows(s.rows, rows)
    ensures Sound(Applying(s, i, rows))
  {
    hide Keyed, Mirrors, Logged, Present, Upsert;
    LogsOneMore(s.workers, s.log, i);
    InTurnOneMore(s.log, Bumped(i, s.workers[i].bump));
  }

  lemma EnteringSound(s: State, i: nat, phase: Phase)
    requires Sound(s) && i < |s.workers| && s.workers[i].phase != Done && phase !in {Done, Lost}
    requires phase in {Missed, Refused} ==> s.workers[i].bump.one != s.workers[i].bump.other
    requires phase == Refused ==> Present(s.rows, PairOf(s.workers[i].bump))
    ensures Sound(Entering(s, i, phase))
  {
    hide Keyed, Mirrors, Logged, Present;
    LogKept(s.workers, s.log, i, phase);
  }

  lemma AdvanceSound(s: State, i: nat)
    requires Sound(s) && i < |s.workers|
    ensures Sound(Advance(s, i))
  {
    hide Entering, Applying, Keyed, Mirrors, Present, Logged, UpdateRows;
    var b, phase := s.workers[i].bump, s.workers[i].phase;
    var table := InTurn(s.log);
    if phase in {Ready, Missed, Refused} && b.one != b.other {
      UpdateGrows(s.rows, b);
      if Present(s.rows, PairOf(b)) {
        UpdateMirrors(s.rows, table, b);
        ApplyingSound(s, i, UpdateRows(s.rows, b));
        EnteringSound(s, i, Refused);
      } else {
        InsertMirrors(s.rows, table, b);
        ApplyingSound(s, i, s.rows + [Row(PairOf(b), NewCell(b))]);
        EnteringSound(s, i, Missed);
      }
    } else if phase == Ready {
      EnteringSound(s, i, Skipped);
    }
  }

  lemma BeginSound(s: State, b: Bump)
    requires Sound(s)
    ensures Sound(Next(s, Begin(b)))
  {
    hide Keyed, Mirrors, InTurn, Present;
    var after := s.workers + [Worker(b, Ready)];
    forall i | 0 <= i < |after| && after[i].phase == Done
      ensures exists k :: 0 <= k < |s.log| && s.log[k] == Bumped(i, after[i].bump) {
      assert after[i] == s.workers[i];
    }
  }

  lemma PassSound(s: State, pass: Decay)
    requires Sound(s)
    ensures Sound(Next(s, Pass(pass)))
  {
    hide Keyed, Mirrors, FadeRows, Present;
    FadeMirrors(s.rows, InTurn(s.log), pass);
    InTurnOneMore(s.log, Decayed(pass));
    var log := s.log + [Decayed(pass)];
    forall i | 0 <= i < |s.workers| && s.workers[i].phase == Done
      ensures exists k :: 0 <= k < |log| && log[k] == Bumped(i, s.workers[i].bump) {
      var k :| 0 <= k < |s.log| && s.log[k] == Bumped(i, s.workers[i].bump);
      assert log[k] == s.log[k];
    }
    FadeGrows(s.rows, pass);
  }

  lemma FadeGrows(rows: seq<Row>, pass: Decay)
    ensures Grows(rows, FadeRows(rows, pass))
  {
    forall p | Present(rows, p) ensures Present(FadeRows(rows, pass), p) {
      var i :| 0 <= i < |rows| && rows[i].pair == p;
      assert FadeRows(rows, pass)[i].pair == p;
    }
  }

  lemma {:induction false} AlwaysSound(events: seq<Event>)
    ensures Sound(After(events))
  {
    hide Sound, Advance;
    if events == [] {
      EmptySound();
    } else {
      var s, e := After(events[..|events| - 1]), events[|events| - 1];
      AlwaysSound(events[..|events| - 1]);
      match e
      case Begin(b) => BeginSound(s, b);
      case Proceed(i) => if i < |s.workers| { AdvanceSound(s, i); }
      case Pass(pass) => PassSound(s, pass);
    }
  }

  lemma EmptySound()
    ensures Sound(State([], [], []))
  {
  }

  // ---------------------------------------------------------------- no bump is lost

  /** The workers whose bumps of a pair the log holds. */
  function Hits(log: seq<Applied>, p: Pair): set<nat> {
    if log == [] then {}
    else
      var last := log[|log| - 1];
      Hits(log[..|log| - 1], p) + if last.Bumped? && PairOf(last.bump) == p then {last.worker} else {}
  }

  ghost predicate OncePerWorker(log: seq<Applied>) {
    forall j, k :: 0 <= j < k < |log| && log[j].Bumped? && log[k].Bumped? ==> log[j].worker != log[k].worker
  }

  lemma {:induction false} HitsAre(log: seq<Applied>, p: Pair, w: nat)
    ensures w in Hits(log, p) <==>
              exists k :: 0 <= k < |log| && log[k].Bumped? && log[k].worker == w && PairOf(log[k].bump) == p
  {
    if log != [] {
      var front, last := log[..|log| - 1], log[|log| - 1];
      HitsAre(front, p, w);
      if last.Bumped? && last.worker == w && PairOf(last.bump) == p {
        assert log[|log| - 1] == last;
      }
    }
  }

  lemma {:induction false} InteractionsAreHits(log: seq<Applied>, p: Pair)
    requires OncePerWorker(log)
    ensures p in InTurn(log) <==> Hits(log, p) != {}
    ensures p in InTurn(log) ==> InTurn(log)[p].interactions == |Hits(log, p)|
  {
    if log != [] {
      var front, last := log[..|log| - 1], log[|log| - 1];
      assert OncePerWorker(front);
      InteractionsAreHits(front, p);
      if last.Bumped? {
        HitsAre(front, p, last.worker);
        assert log[|log| - 1] == last;
        assert last.worker !in Hits(front, p);
      }
    }
  }

  /** The workers that finished bumping a pair. */
  ghost function Finished(s: State, p: Pair): set<nat> {
    set i | 0 <= i < |s.workers| && s.workers[i].phase == Done && PairOf(s.workers[i].bump) == p
  }

  /** Every interleaving of bumps and decay passes leaves what atomic upserts leave that are made
      one after another in some order, one for each worker that finished.  None fails, and a
      pair's row counts exactly the workers that finished bumping it. */
  lemma NoBumpIsLost(events: seq<Event>)
    ensures var s := After(events);
            && Keyed(s.rows) && Mirrors(s.rows, InTurn(s.log)) && Logged(s.workers, s.log)
            && (forall i :: 0 <= i < |s.workers| ==> s.workers[i].phase != Lost)
            && (forall p :: Present(s.rows, p) <==> Finished(s, p) != {})
            && (forall i :: 0 <= i < |s.rows| ==> s.rows[i].cell.interactions == |Finished(s, s.rows[i].pair)|)
  {
    hide After, InTurn, Hits, Keyed;
    AlwaysSound(events);
    var s := After(events);
    forall p ensures Finished(s, p) == Hits(s.log, p) && (Present(s.rows, p) <==> Finished(s, p) != {}) {
      FinishedHits(s, p);
      InteractionsAreHits(s.log, p);
    }
    forall i | 0 <= i < |s.rows| ensures s.rows[i].cell.interactions == |Finished(s, s.rows[i].pair)| {
      InteractionsAreHits(s.log, s.rows[i].pair);
    }
  }

  /** The bumps begun, in order. */
  function Begun(events: seq<Event>): seq<Bump> {
    if events == [] then []
    else
      var e := events[|events| - 1];
      Begun(events[..|events| - 1]) + if e.Begin? then [e.bump] else []
  }

  /** The turns a worker has had. */
  function Turns(events: seq<Event>, i: nat): nat {
    if events == [] then 0
    else
      var front := events[..|events| - 1];
      Turns(front, i) + if events[|events| - 1] == Proceed(i) && i < |Begun(front)| then 1 else 0
  }

  /** So three turns in a row finish any worker, whatever went before. */
  lemma ThreeInARow(events: seq<Event>, i: nat)
    requires i < |Begun(events)|
    ensures var w := After(events + [Proceed(i)] + [Proceed(i)] + [Proceed(i)]).workers;
            && i < |w| && w[i].bump == Begun(events)[i]
            && w[i].phase == if w[i].bump.one == w[i].bump.other then Skipped else Done
  {
    var one := events + [Proceed(i)];
    var two := one + [Proceed(i)];
    OneMoreTurn(events, i);
    OneMoreTurn(one, i);
    OneMoreTurn(two, i);
    hide After, Turns, Begun;
    ThreeTurnsFinish(two + [Proceed(i)], i);
  }

  lemma OneMoreTurn(events: seq<Event>, i: nat)
    requires i < |Begun(events)|
    ensures Turns(events + [Proceed(i)], i) == Turns(events, i) + 1 && Begun(events + [Proceed(i)]) == Begun(events)
  {
    assert (events + [Proceed(i)])[..|events|] == events;
  }

  /** Where a worker may be after so many turns. */
  ghost predicate OnTime(w: Worker, turns: nat) {
    && (w.phase == Ready ==> turns == 0) && (w.phase == Missed ==> turns <= 1) && (w.phase == Refused ==> turns <= 2)
    && w.phase != Lost && (w.phase != Ready ==> (w.phase == Skipped <==> w.bump.one == w.bump.other))
  }

  /** Every bump begun has a worker, and the worker is done after three turns at most: it has
      bumped its pair, or it had no pair to bump. */
  lemma ThreeTurnsFinish(events: seq<Event>, i: nat)
    requires i < |Begun(events)|
    ensures |After(events).workers| == |Begun(events)|
    ensures var w := After(events).workers[i];
            && w.bump == Begun(events)[i]
            && (Turns(events, i) >= 3 ==> w.phase == if w.bump.one == w.bump.other then Skipped else Done)
  {
    AllOnTime(events, i);
  }

  lemma {:induction false} AllOnTime(events: seq<Event>, i: nat)
    ensures |After(events).workers| == |Begun(events)|
    ensures i < |Begun(events)| ==>
              After(events).workers[i].bump == Begun(events)[i] && OnTime(After(events).workers[i], Turns(events, i))
    ensures i >= |Begun(events)| ==> Turns(events, i) == 0
  {
    if events != [] {
      var front, e := events[..|events| - 1], events[|events| - 1];
      AllOnTime(front, i);
      AlwaysSound(events);
      assert i < |After(events).workers| ==> After(events).workers[i].phase != Lost;
      hide Present, UpdateRows, FadeRows, PairOf, Sound, OnTime;
      OneTurn(After(front), e, i);
      hide Next;
      if i < |Begun(front)| {
        TurnOnTime(After(front).workers[i], After(events).workers[i], Turns(front, i), e == Proceed(i));
      } else if i < |Begun(events)| {
        FreshOnTime(After(events).workers[i]);
      }
    }
  }

  lemma FreshOnTime(w: Worker)
    requires w.phase == Ready
    ensures OnTime(w, 0)
  {
  }

  lemma TurnOnTime(w: Worker, v: Worker, turns: nat, mine: bool)
    requires OnTime(w, turns) && v.phase != Lost && v.bump == w.bump
    requires !mine || w.phase in {Done, Skipped, Lost} ==> v == w
    requires mine && w.phase == Ready ==>
               if w.bump.one == w.bump.other then v.phase == Skipped else v.phase in {Missed, Done}
    requires mine && w.phase == Missed ==> v.phase in {Refused, Done}
    requires mine && w.phase == Refused ==> v.phase in {Lost, Done}
    ensures OnTime(v, turns + if mine then 1 else 0)
  {
  }

  lemma OneTurn(s: State, e: Event, i: nat)
    ensures var after := Next(s, e);
            && |after.workers| == |s.workers| + (if e.Begin? then 1 else 0)
            && (e.Begin? ==> after.workers[|s.workers|] == Worker(e.bump, Ready))
            && (i < |s.workers| ==>
                  var w, v := s.workers[i], after.workers[i];
                  && v.bump == w.bump
                  && (e != Proceed(i) || w.phase in {Done, Skipped, Lost} ==> v == w)
                  && (e == Proceed(i) && w.phase == Ready ==>
                        if w.bump.one == w.bump.other then v.phase == Skipped else v.phase in {Missed, Done})
                  && (e == Proceed(i) && w.phase == Missed ==> v.phase in {Refused, Done})
                  && (e == Proceed(i) && w.phase == Refused ==> v.phase in {Lost, Done}))
  {
    hide Present, UpdateRows, FadeRows, PairOf;
  }

  lemma FinishedHits(s: State, p: Pair)
    requires Logged(s.workers, s.log)
    ensures Finished(s, p) == Hits(s.log, p)
  {
    hide Hits;
    forall w: nat ensures w in Finished(s, p) <==> w in Hits(s.log, p) {
      HitsAre(s.log, p, w);
    }
  }

  // ---------------------------------------------------------------- bounds

  ghost predicate Fades(log: seq<Applied>) {
    forall k :: 0 <= k < |log| && log[k].Decayed? ==>
          0.0 <= log[k].pass.familiarity <= 1.0 && 0.0 <= log[k].pass.affinity <= 1.0
  }

  ghost predicate InRange(cell: Cell) { 0.0 <= cell.familiarity <= 1.0 && -1.0 <= cell.affinity <= 1.0 }

  lemma Shrinks(x: real, f: real)
    requires 0.0 <= x <= 1.0 && 0.0 <= f <= 1.0
    ensures 0.0 <= x * f <= 1.0
  {
    assert 0.0 <= x * f <= x * 1.0;
  }

  lemma FadedInRange(cell: Cell, pass: Decay)
    requires InRange(cell) && 0.0 <= pass.familiarity <= 1.0 && 0.0 <= pass.affinity <= 1.0
    ensures InRange(Faded(cell, pass))
  {
    Shrinks(cell.familiarity, pass.familiarity);
    if cell.affinity >= 0.0 {
      Shrinks(cell.affinity, pass.affinity);
    } else {
      Shrinks(-cell.affinity, pass.affinity);
      assert cell.affinity * pass.affinity == -(-cell.affinity * pass.affinity);
    }
  }

  lemma BumpedInRange(cell: Cell, b: Bump)
    ensures InRange(Touched(cell, b)) && InRange(NewCell(b))
  {
  }

  /** Familiarity stays between 0 and 1 and affinity between -1 and 1, whatever is added. */
  lemma {:induction false} CellsInRange(log: seq<Applied>, p: Pair)
    requires Fades(log) && p in InTurn(log)
    ensures InRange(InTurn(log)[p])
  {
    hide InRange, Touched, NewCell, Faded;
    var front, last := log[..|log| - 1], log[|log| - 1];
    assert Fades(front);
    var table := InTurn(front);
    if last.Bumped? {
      if p == PairOf(last.bump) {
        BumpedInRange(if p in table then table[p] else NewCell(last.bump), last.bump);
      } else {
        CellsInRange(front, p);
      }
    } else {
      CellsInRange(front, p);
      FadedInRange(table[p], last.pass);
    }
  }

  ghost predicate Fading(pass: Decay) { 0.0 <= pass.familiarity <= 1.0 && 0.0 <= pass.affinity <= 1.0 }

  lemma {:induction false} PassesAreLogged(events: seq<Event>)
    requires forall e :: e in events && e.Pass? ==> Fading(e.pass)
    ensures Fades(After(events).log)
  {
    if events != [] {
      var front, e := events[..|events| - 1], events[|events| - 1];
      assert e in events;
      PassesAreLogged(front);
      hide UpdateRows, FadeRows, Present;
    }
  }

  /** Whatever bumps and decay passes interleave, every row of the table stays in range. */
  lemma TableInRange(events: seq<Event>)
    requires forall e :: e in events && e.Pass? ==> Fading(e.pass)
    ensures forall r :: r in After(events).rows ==> InRange(r.cell)
  {
    hide After, InTurn, InRange, Fades, Fading, Keyed, Logged, NoneLost;
    AlwaysSound(events);
    PassesAreLogged(events);
    var s := After(events);
    forall r | r in s.rows ensures InRange(r.cell) {
      var i :| 0 <= i < |s.rows| && s.rows[i] == r;
      CellsInRange(s.log, r.pair);
    }
  }

  // ---------------------------------------------------------------- what the report reads

  const RESIDENT := "resident"

  /** The edges between residents. */
  function Familiarities(rows: seq<Row>): seq<Edge> {
    if rows == [] then []
    else
      var r := rows[|rows| - 1];
      Familiarities(rows[..|rows| - 1])
      + if r.cell.aType == RESIDENT && r.cell.bType == RESIDENT
        then [Edge(r.pair.0, r.pair.1, r.cell.familiarity)] else []
  }

  /** An edge is read exactly from a row between two residents. */
  lemma {:induction false} EdgesAreRows(rows: seq<Row>, a: string, b: string, familiarity: real)
    ensures Edge(a, b, familiarity) in Familiarities(rows)
       <==> exists i :: 0 <= i < |rows| && rows[i].pair == (a, b) && rows[i].cell.familiarity == familiarity
              && rows[i].cell.aType == "resident" && rows[i].cell.bType == "resident"
  {
    if rows != [] {
      var n := |rows| - 1;
      EdgesAreRows(rows[..n], a, b, familiarity);
      assert forall i :: 0 <= i < n ==> rows[..n][i] == rows[i];
    }
  }

  lemma {:induction false} EdgeHasRow(rows: seq<Row>, k: nat) returns (i: nat)
    requires k < |Familiarities(rows)|
    ensures i < |rows| && rows[i].pair == (Familiarities(rows)[k].a, Familiarities(rows)[k].b)
  {
    var front := rows[..|rows| - 1];
    if k < |Familiarities(front)| {
      i := EdgeHasRow(front, k);
    } else {
      i := |rows| - 1;
    }
  }

  /** What is read from a table with one row a pair is a canonical list of edges. */
  lemma {:induction false} ReadsCanonical(rows: seq<Row>)
    requires Keyed(rows)
    ensures Canonical(Familiarities(rows))
  {
    if rows != [] {
      var front, r := rows[..|rows| - 1], rows[|rows| - 1];
      var edges := Familiarities(front);
      ReadsCanonical(front);
      PrecedesOneWay(r.pair.0, r.pair.1);
      forall k | 0 <= k < |edges| ensures !SamePair(edges[k], Edge(r.pair.0, r.pair.1, r.cell.familiarity)) {
        var i := EdgeHasRow(front, k);
        assert front[i] == rows[i];
        PrecedesOneWay(edges[k].a, edges[k].b);
      }
    }
  }

  /** On every snapshot of the relation table, however its writers were interleaved, the report
      counts as passing exactly as many as the nightly rule promotes. */
  lemma ReportAgreesOnRelations(events: seq<Event>, snap: Snapshot, anchors: set<string>, g: Gates)
    requires snap.familiarity == Familiarities(After(events).rows)
    ensures |Selected(snap.facts, snap, anchors, g)|
            == Tally(Where(snap.facts, IsDenizen), ReportData(snap, anchors), g, Passed)
  {
    hide After, Familiarities, Keyed, Canonical;
    AlwaysSound(events);
    ReadsCanonical(After(events).rows);
    AgreesWithSelectPromotions(snap, anchors, g, snap.facts);
  }
}
