/** Fractional weights, as live readings have them: how far a shift can change the movable mass, and when it
    never does. */
module {:induction false} ShiftMass {
  import opened Options
  import opened Weights
  import opened Stations
  import opened LateralRows
  import opened RowBalance
  import opened CgShift
  import opened CgShiftLaws
  import opened ShiftDirection
  import RowEdges

  // ---- balancing ----

  /** Pounds that balancing one row adds. */
  function RowGain(w: Load, cap: Load, row: Row): real {
    var r := EvenRow(w, cap, row);
    At(r, row.0) + At(r, row.1) - At(w, row.0) - At(w, row.1)
  }

  function RowsGain(w: Load, cap: Load, rows: seq<Row>): real {
    if rows == [] then 0.0 else RowGain(w, cap, rows[0]) + RowsGain(w, cap, rows[1..])
  }

  ghost predicate InCaps(w: Load, cap: Load, rows: seq<Row>) {
    forall r <- rows :: 0.0 <= At(w, r.0) <= At(cap, r.0) && 0.0 <= At(w, r.1) <= At(cap, r.1)
  }

  lemma GainLocal(w: Load, v: Load, cap: Load, rows: seq<Row>)
    requires forall r <- rows :: At(v, r.0) == At(w, r.0) && At(v, r.1) == At(w, r.1)
    ensures RowsGain(v, cap, rows) == RowsGain(w, cap, rows)
  {
    if rows != [] {
      assert rows[0] in rows;
      EvenRowLocal(v, w, cap, rows[0]);
      GainLocal(w, v, cap, rows[1..]);
    }
  }

  lemma RowMass(w: Load, cap: Load, row: Row, all: seq<int>)
    requires NoDup(all) && row.0 in all && row.1 in all && row.0 != row.1
    ensures Sum(EvenRow(w, cap, row), all) == Sum(w, all) + RowGain(w, cap, row)
  {
    var r := EvenRow(w, cap, row);
    var u := w[row.0 := At(r, row.0)];
    var v := u[row.1 := At(r, row.1)];
    SumUpdate(w, row.0, At(r, row.0), all);
    SumUpdate(u, row.1, At(r, row.1), all);
    EvenRowDiffers(w, cap, row, all);
    SumFrame(v, r, all);
  }

  lemma OthersStay(w: Load, cap: Load, rows: seq<Row>)
    requires rows != [] && Disjoint(rows)
    ensures forall r <- rows[1..] :: At(EvenRow(w, cap, rows[0]), r.0) == At(w, r.0) && At(EvenRow(w, cap, rows[0]), r.1) == At(w, r.1)
  {
    forall r <- rows[1..]
      ensures At(EvenRow(w, cap, rows[0]), r.0) == At(w, r.0) && At(EvenRow(w, cap, rows[0]), r.1) == At(w, r.1)
    {
      var k :| 0 <= k < |rows[1..]| && rows[1..][k] == r;
      assert r == rows[k + 1];
      EvenRowElsewhere(w, cap, rows[0], r.0);
      EvenRowElsewhere(w, cap, rows[0], r.1);
    }
  }

  /** Balancing changes the mass by the sum of what its rows gain. */
  lemma EvenRowsMass(w: Load, cap: Load, rows: seq<Row>, all: seq<int>)
    requires NoDup(all) && RowsIn(rows, all) && Disjoint(rows)
    ensures Sum(EvenRows(w, cap, rows), all) == Sum(w, all) + RowsGain(w, cap, rows)
    decreases rows
  {
    if rows != [] {
      var v := EvenRow(w, cap, rows[0]);
      assert rows[0] in rows;
      RowMass(w, cap, rows[0], all);
      OthersStay(w, cap, rows);
      EvenRowsMass(v, cap, rows[1..], all);
      GainLocal(w, v, cap, rows[1..]);
    }
  }

  /** A row within its caps gains or loses at most half a pound. */
  lemma RowGainIsSmall(w: Load, cap: Load, row: Row)
    requires row.0 != row.1 && 0.0 <= At(w, row.0) <= At(cap, row.0) && 0.0 <= At(w, row.1) <= At(cap, row.1)
    ensures -0.5 <= RowGain(w, cap, row) <= 0.5
  {
    EvenRowShares(w, cap, row);
    RoundWhole(At(w, row.0) + At(w, row.1));
  }

  lemma RowsGainIsSmall(w: Load, cap: Load, rows: seq<Row>)
    requires InCaps(w, cap, rows) && forall r <- rows :: r.0 != r.1
    ensures -0.5 * |rows| as real <= RowsGain(w, cap, rows) <= 0.5 * |rows| as real
  {
    if rows != [] {
      assert rows[0] in rows && rows == [rows[0]] + rows[1..];
      RowGainIsSmall(w, cap, rows[0]);
      RowsGainIsSmall(w, cap, rows[1..]);
    }
  }

  // ---- the shift ----

  /** Any weights within the caps. */
  ghost predicate Fits(w: Load, p: Profile, movable: seq<int>, softMax: Load) {
    && NoDup(movable) && (forall i <- movable :: Known(p, i))
    && forall i <- movable :: 0.0 <= At(w, i) <= EffectiveCap(p, softMax, i)
  }

  lemma MovedKeeps(w: Load, p: Profile, movable: seq<int>, direction: Direction, amountLb: real,
                   minRetain: Load, softMax: Load, deferred: set<int>)
    requires Fits(w, p, movable, softMax)
    ensures var v := Moved(w, p, movable, direction, amountLb, minRetain, softMax, deferred).w;
            && Sum(v, movable) == Sum(w, movable)
            && forall i <- movable :: 0.0 <= At(v, i) <= EffectiveCap(p, softMax, i)
  {
    var s := Shift(w, Max(0.0, RoundLb(amountLb)), 0.0);
    var caps := ShiftCaps(p, softMax, movable);
    var moves := if s.remaining <= 0.0 || |movable| < 2 then [] else MovesOf(p, movable, direction, deferred);
    MovesOfWithin(p, movable, direction, deferred);
    RunConserves(s, caps, minRetain, moves, movable);
    forall i <- movable ensures 0.0 <= At(Run(s, caps, minRetain, moves).w, i) <= EffectiveCap(p, softMax, i) {
      RunBounds(s, caps, minRetain, moves, i);
    }
  }

  /** For any weights within the caps a shift changes the movable mass by what its rows gain, at most half a
      pound each. */
  lemma ShiftMassWithin(w: Load, p: Profile, movable: seq<int>, direction: Direction, amountLb: real,
                        minRetain: Load, softMax: Load, deferred: set<int>)
    requires Fits(w, p, movable, softMax)
    ensures var v := Shifted(w, p, movable, direction, amountLb, minRetain, softMax, deferred);
            var half := 0.5 * |Rows(p, movable)| as real;
            Sum(w, movable) - half <= Sum(v, movable) <= Sum(w, movable) + half
  {
    var s := Moved(w, p, movable, direction, amountLb, minRetain, softMax, deferred);
    var caps, rows := Caps(p, softMax, movable), Rows(p, movable);
    MovedKeeps(w, p, movable, direction, amountLb, minRetain, softMax, deferred);
    RowsPartition(p, movable);
    assert InCaps(s.w, caps, rows) by {
      forall r <- rows ensures 0.0 <= At(s.w, r.0) <= At(caps, r.0) && 0.0 <= At(s.w, r.1) <= At(caps, r.1) {
        assert r.0 in movable && r.1 in movable;
      }
    }
    EvenRowsMass(s.w, caps, rows, movable);
    RowsGainIsSmall(s.w, caps, rows);
  }

  // ---- when no fraction is ever lost ----

  ghost predicate KeepsMass(w: Load, p: Profile, movable: seq<int>, direction: Direction, amountLb: real,
                            minRetain: Load, softMax: Load, deferred: set<int>)
  {
    Sum(Shifted(w, p, movable, direction, amountLb, minRetain, softMax, deferred), movable) == Sum(w, movable)
  }

  ghost predicate Holds(cap: Load, row: Row) {
    At(cap, row.0) > 0.0 || At(cap, row.1) > 0.0
  }

  lemma SealedRows(w: Load, cap: Load, rows: seq<Row>)
    requires InCaps(w, cap, rows) && forall r <- rows :: r.0 != r.1 && !Holds(cap, r)
    ensures RowsGain(w, cap, rows) == 0.0
  {
    if rows != [] {
      assert rows[0] in rows && rows == [rows[0]] + rows[1..];
      EvenRowShares(w, cap, rows[0]);
      SealedRows(w, cap, rows[1..]);
    }
  }

  lemma SealedShift(w: Load, p: Profile, movable: seq<int>, direction: Direction, amountLb: real,
                    minRetain: Load, softMax: Load, deferred: set<int>)
    requires Fits(w, p, movable, softMax) && forall r <- Rows(p, movable) :: !Holds(Caps(p, softMax, movable), r)
    ensures KeepsMass(w, p, movable, direction, amountLb, minRetain, softMax, deferred)
  {
    var s := Moved(w, p, movable, direction, amountLb, minRetain, softMax, deferred);
    var caps, rows := Caps(p, softMax, movable), Rows(p, movable);
    MovedKeeps(w, p, movable, direction, amountLb, minRetain, softMax, deferred);
    RowsPartition(p, movable);
    assert InCaps(s.w, caps, rows) by {
      forall r <- rows ensures 0.0 <= At(s.w, r.0) <= At(caps, r.0) && 0.0 <= At(s.w, r.1) <= At(caps, r.1) {
        assert r.0 in movable && r.1 in movable;
      }
    }
    EvenRowsMass(s.w, caps, rows, movable);
    SealedRows(s.w, caps, rows);
  }

  /** A crumb on one seat of a row is rounded away. */
  lemma CrumbIsLost(w: Load, cap: Load, row: Row)
    requires row.0 != row.1 && At(cap, row.0) >= 0.0 && At(cap, row.1) >= 0.0
    requires At(w, row.0) >= 0.0 && At(w, row.1) >= 0.0 && 0.0 < At(w, row.0) + At(w, row.1) < 0.5
    ensures RowGain(w, cap, row) < 0.0
    ensures At(EvenRow(w, cap, row), row.0) == 0.0 && At(EvenRow(w, cap, row), row.1) == 0.0
  {
    EvenRowShares(w, cap, row);
    FloorIs(At(w, row.0) + At(w, row.1) + 0.5, 0);
  }

  lemma RowOfNothing(w: Load, cap: Load, row: Row)
    requires row.0 != row.1 && At(cap, row.0) >= 0.0 && At(cap, row.1) >= 0.0
    requires At(w, row.0) == 0.0 && At(w, row.1) == 0.0
    ensures RowGain(w, cap, row) == 0.0
  {
    EvenRowShares(w, cap, row);
    FloorIs(0.5, 0);
  }

  lemma OneGains(w: Load, cap: Load, rows: seq<Row>, row: Row)
    requires Disjoint(rows) && forall r <- rows :: r.0 != r.1 && At(cap, r.0) >= 0.0 && At(cap, r.1) >= 0.0
    requires forall r <- rows :: r == row || (At(w, r.0) == 0.0 && At(w, r.1) == 0.0)
    ensures RowsGain(w, cap, rows) == if row in rows then RowGain(w, cap, row) else 0.0
  {
    if rows != [] {
      assert rows[0] in rows && rows == [rows[0]] + rows[1..];
      OneGains(w, cap, rows[1..], row);
      if rows[0] == row {
        assert row !in rows[1..];
      } else {
        RowOfNothing(w, cap, rows[0]);
      }
    }
  }

  /** A crumb on the seat with room, held by the floors. */
  lemma LosingShift(p: Profile, movable: seq<int>, direction: Direction, softMax: Load, row: Row, i: int, x: real, w: Load)
    requires NoDup(movable) && (forall k <- movable :: EffectiveCap(p, softMax, k) >= 0.0) && |movable| >= 2
    requires row in Rows(p, movable) && (i == row.0 || i == row.1) && 0.0 < x < 0.5 && w == OnlyOn(movable, i, x)
    ensures !KeepsMass(w, p, movable, direction, 1.0, w, softMax, {})
  {
    var v := Balanced(w, p, movable, softMax);
    assert Shifted(w, p, movable, direction, 1.0, w, softMax, {}) == v by {
      FlooredShift(w, p, movable, direction, softMax);
    }
    assert Sum(v, movable) < Sum(w, movable) by {
      CrumbOfRows(p, movable, softMax, row, i, x);
    }
  }

  lemma CrumbFits(p: Profile, movable: seq<int>, softMax: Load, i: int, x: real)
    requires NoDup(movable) && (forall k <- movable :: Known(p, k) && EffectiveCap(p, softMax, k) >= 0.0)
    requires i in movable && 0.0 < x <= EffectiveCap(p, softMax, i)
    ensures Fits(OnlyOn(movable, i, x), p, movable, softMax)
  {
  }

  lemma FlooredShift(w: Load, p: Profile, movable: seq<int>, direction: Direction, softMax: Load)
    requires |movable| >= 2
    ensures Shifted(w, p, movable, direction, 1.0, w, softMax, {}) == Balanced(w, p, movable, softMax)
  {
    assert Whole(1.0);
    RoundWhole(1.0);
    NothingMoves(w, p, movable, direction, softMax);
  }

  lemma CrumbOfRows(p: Profile, movable: seq<int>, softMax: Load, row: Row, i: int, x: real)
    requires NoDup(movable) && forall k <- movable :: EffectiveCap(p, softMax, k) >= 0.0
    requires row in Rows(p, movable) && (i == row.0 || i == row.1) && 0.0 < x < 0.5
    ensures Sum(Balanced(OnlyOn(movable, i, x), p, movable, softMax), movable) < Sum(OnlyOn(movable, i, x), movable)
  {
    var cap, rows := Caps(p, softMax, movable), Rows(p, movable);
    var w := OnlyOn(movable, i, x);
    OthersEmpty(w, p, movable, row, i);
    EvenRowsMass(w, cap, rows, movable);
    OneGains(w, cap, rows, row);
    CrumbIsLost(w, cap, row);
  }

  /** A shift keeps the mass of every load, fractions included, exactly when no row can hold anything. */
  lemma ShiftKeepsMassIff(p: Profile, movable: seq<int>, direction: Direction, softMax: Load)
    requires NoDup(movable) && (forall i <- movable :: Known(p, i) && EffectiveCap(p, softMax, i) >= 0.0) && |movable| >= 2
    ensures (forall w: Load, amountLb: real, minRetain: Load, deferred: set<int> ::
               Fits(w, p, movable, softMax) ==> KeepsMass(w, p, movable, direction, amountLb, minRetain, softMax, deferred))
            <==> forall r <- Rows(p, movable) :: !Holds(Caps(p, softMax, movable), r)
  {
    var cap := Caps(p, softMax, movable);
    if forall r <- Rows(p, movable) :: !Holds(cap, r) {
      forall w: Load, amountLb: real, minRetain: Load, deferred: set<int> | Fits(w, p, movable, softMax)
        ensures KeepsMass(w, p, movable, direction, amountLb, minRetain, softMax, deferred)
      {
        SealedShift(w, p, movable, direction, amountLb, minRetain, softMax, deferred);
      }
    } else {
      var row :| row in Rows(p, movable) && Holds(cap, row);
      var w := HoldingRowLoses(p, movable, direction, softMax, row);
    }
  }

  lemma HoldingRowLoses(p: Profile, movable: seq<int>, direction: Direction, softMax: Load, row: Row) returns (w: Load)
    requires NoDup(movable) && (forall k <- movable :: Known(p, k) && EffectiveCap(p, softMax, k) >= 0.0) && |movable| >= 2
    requires row in Rows(p, movable) && Holds(Caps(p, softMax, movable), row)
    ensures Fits(w, p, movable, softMax) && !KeepsMass(w, p, movable, direction, 1.0, w, softMax, {})
  {
    var cap := Caps(p, softMax, movable);
    var i := if At(cap, row.0) > 0.0 then row.0 else row.1;
    RowsAreSound(p, movable);
    w := OnlyOn(movable, i, Min(0.4, At(cap, i)));
    CrumbFits(p, movable, softMax, i, Min(0.4, At(cap, i)));
    LosingShift(p, movable, direction, softMax, row, i, Min(0.4, At(cap, i)), w);
  }

  // ---- such a load ----

  lemma NotAMove(p: Profile, i: int, direction: Direction, m: Move)
    requires Rows(p, [i, i + 1]) == [(i, i + 1)]
    ensures m !in MovesOf(p, [i, i + 1], direction, {})
  {
    var ids := [i, i + 1];
    MovesOfHas(p, ids, direction, {}, m);
    if m.0 in ForwardFirst(p, ids) && m.1 in ForwardFirst(p, ids) {
      OrderMembers(p, ids, m.0);
      OrderMembers(p, ids, m.1);
      assert m.0 in ids && m.1 in ids;
      RowMatesStay(CourseOf(p, ids, direction), i, m);
    }
  }

  lemma RowMatesStay(c: Course, i: int, m: Move)
    requires c.rows == [(i, i + 1)] && (m.0 == i || m.0 == i + 1) && (m.1 == i || m.1 == i + 1)
    ensures !Allowed(c, m.0, m.1)
  {
  }

  lemma NoMoves(p: Profile, i: int, direction: Direction)
    requires Rows(p, [i, i + 1]) == [(i, i + 1)]
    ensures MovesOf(p, [i, i + 1], direction, {}) == []
  {
    var moves := MovesOf(p, [i, i + 1], direction, {});
    if moves != [] {
      NotAMove(p, i, direction, moves[0]);
    }
  }

  lemma StillShift(w: Load, p: Profile, movable: seq<int>, direction: Direction, softMax: Load)
    requires |movable| >= 2 && MovesOf(p, movable, direction, {}) == []
    ensures Moved(w, p, movable, direction, 1.0, map[], softMax, {}) == Shift(w, 1.0, 0.0)
    ensures Shifted(w, p, movable, direction, 1.0, map[], softMax, {}) == Balanced(w, p, movable, softMax)
  {
    assert Whole(1.0);
    RoundWhole(1.0);
  }

  lemma OneRowBalanced(w: Load, p: Profile, movable: seq<int>, softMax: Load, row: Row)
    requires Rows(p, movable) == [row]
    ensures Balanced(w, p, movable, softMax) == EvenRow(w, Caps(p, softMax, movable), row)
  {
    assert [row][1..] == [];
    assert EvenRows(w, Caps(p, softMax, movable), [row]) == EvenRow(w, Caps(p, softMax, movable), row);
  }

  /** Two seats that make a row, 0.4 lb on the first: asked to move a pound, the shift reports that nothing
      moved, and the 0.4 lb are gone. */
  lemma FractionIsLost(i: int, a: real, b: real, lb: real, direction: Direction, w: Load)
    requires a > b + PAIR_MAX_ARM_DELTA_FT && lb >= 1.0 && w == map[i := 0.4, i + 1 := 0.0]
    ensures var p := [Station(i, lb, Some(a), None, false), Station(i + 1, lb, Some(b), None, false)];
            var v := Shifted(w, p, [i, i + 1], direction, 1.0, map[], map[], {});
            && Moved(w, p, [i, i + 1], direction, 1.0, map[], map[], {}).moved == 0.0
            && At(v, i) == 0.0 && At(v, i + 1) == 0.0
  {
    var p := [Station(i, lb, Some(a), None, false), Station(i + 1, lb, Some(b), None, false)];
    var ids := [i, i + 1];
    RowEdges.DistantArmsArePaired(i, a, b, lb);
    NoMoves(p, i, direction);
    StillShift(w, p, ids, direction, map[]);
    OneRowBalanced(w, p, ids, map[], (i, i + 1));
    TwoCaps(p, i, lb);
    CrumbIsLost(w, Caps(p, map[], ids), (i, i + 1));
  }

  lemma TwoCaps(p: Profile, i: int, lb: real)
    requires |p| == 2 && p[0].index == i && p[1].index == i + 1 && p[0].maxLoad == p[1].maxLoad == lb
    ensures At(Caps(p, map[], [i, i + 1]), i) == lb && At(Caps(p, map[], [i, i + 1]), i + 1) == lb
  {
    assert p[1..] == [p[1]];
    assert Lookup(p, i + 1) == Lookup(p[1..], i + 1);
  }
}
