/** When a shift goes the way it is asked to, whatever is loaded: exactly when no row of the profile can
    slip back in the final balancing. */
module {:induction false} ShiftDirection {
  import opened Options
  import opened Weights
  import opened Stations
  import opened LateralRows
  import opened RowBalance
  import opened CgShift
  import opened CgShiftLaws

  /** A row in which balancing can take a pound off the seat that leads: two pounds there, or one on the
      higher index, which loses the odd pound. */
  ghost predicate Slips(sign: Load, cap: Load, row: Row) {
    || (At(sign, row.0) > At(sign, row.1) && At(cap, row.1) > 0.0 && At(cap, row.0) >= 2.0)
    || (At(sign, row.1) > At(sign, row.0) && At(cap, row.0) > 0.0 && At(cap, row.1) >= 1.0)
  }

  /** The shift gains at least 0.05 lb-ft in its direction for every pound it reports. */
  ghost predicate GoesRight(w: Load, p: Profile, movable: seq<int>, direction: Direction, amountLb: real,
                            minRetain: Load, softMax: Load, deferred: set<int>)
  {
    var sign := Signed(Arms(p, movable), direction);
    Moment(Shifted(w, p, movable, direction, amountLb, minRetain, softMax, deferred), sign, movable)
    >= Moment(w, sign, movable) + 0.05 * Moved(w, p, movable, direction, amountLb, minRetain, softMax, deferred).moved
  }

  ghost predicate WholeCapacity(p: Profile, movable: seq<int>, softMax: Load) {
    WholeOn(Caps(p, softMax, movable), movable) && forall i <- movable :: EffectiveCap(p, softMax, i) >= 0.0
  }

  // ---- one row ----

  /** `a` and `b` become `x` and `y`; the lower index leads and cannot lose. */
  lemma LowerKeeps(a: real, b: real, x: real, y: real, ca: real, cb: real)
    requires 0.0 <= a <= ca && 0.0 <= b <= cb && x + y == a + b && Whole(x) && Whole(y) && x >= 0.0 && y >= 0.0
    requires PairFits(x, y, ca, cb) && EvenPair(x, y, ca, cb) && Whole(ca) && (cb == 0.0 || ca < 2.0)
    ensures x >= a
  {
    assert Whole(0.0) && Whole(1.0);
    if x < a {
      WholeApart(x, ca);
      WholeApart(0.0, y);
    }
  }

  lemma HigherKeeps(a: real, b: real, x: real, y: real, ca: real, cb: real)
    requires 0.0 <= a <= ca && 0.0 <= b <= cb && x + y == a + b && x >= 0.0 && y >= 0.0
    requires PairFits(x, y, ca, cb) && (ca == 0.0 || cb < 1.0) && Whole(cb)
    ensures x <= a
  {
    assert Whole(0.0);
    if cb > 0.0 {
      WholeApart(0.0, cb);
    }
  }

  lemma LeverSign(gap: real, pounds: real)
    requires gap > 0.0 ==> pounds >= 0.0
    requires gap < 0.0 ==> pounds <= 0.0
    ensures Lever(gap, pounds) >= 0.0
  {
  }

  lemma LeverLoses(gap: real, pounds: real)
    requires (gap > 0.0 && pounds < 0.0) || (gap < 0.0 && pounds > 0.0)
    ensures Lever(gap, pounds) < 0.0
  {
  }

  lemma SteadyRow(w: Load, cap: Load, sign: Load, row: Row)
    requires row.0 < row.1 && WholeCaps(cap, row) && RowFits(w, cap, row) && !Slips(sign, cap, row)
    requires At(w, row.0) <= At(cap, row.0) && At(w, row.1) <= At(cap, row.1)
    ensures RowDrift(w, cap, sign, row) >= 0.0
  {
    var r := EvenRow(w, cap, row);
    var a, b, x, y := At(w, row.0), At(w, row.1), At(r, row.0), At(r, row.1);
    EvenRowIsEven(w, cap, row);
    RoundWhole(a + b);
    if At(sign, row.0) > At(sign, row.1) {
      LowerKeeps(a, b, x, y, At(cap, row.0), At(cap, row.1));
    } else if At(sign, row.1) > At(sign, row.0) {
      HigherKeeps(a, b, x, y, At(cap, row.0), At(cap, row.1));
    }
    LeverSign(At(sign, row.0) - At(sign, row.1), x - a);
  }

  lemma SteadyRows(w: Load, cap: Load, sign: Load, rows: seq<Row>)
    requires forall r <- rows :: r.0 < r.1 && WholeCaps(cap, r) && RowFits(w, cap, r) && !Slips(sign, cap, r)
                                 && At(w, r.0) <= At(cap, r.0) && At(w, r.1) <= At(cap, r.1)
    ensures RowsDrift(w, cap, sign, rows) >= 0.0
  {
    if rows != [] {
      assert rows[0] in rows && rows == [rows[0]] + rows[1..];
      SteadyRow(w, cap, sign, rows[0]);
      SteadyRows(w, cap, sign, rows[1..]);
    }
  }

  // ---- the whole shift ----

  lemma SteadyShift(w: Load, p: Profile, movable: seq<int>, direction: Direction, amountLb: real,
                    minRetain: Load, softMax: Load, deferred: set<int>)
    requires ShiftReady(w, p, movable, minRetain, softMax) && ArmsKnown(p, movable) && WholeCapacity(p, movable, softMax)
    requires forall r <- Rows(p, movable) :: !Slips(Signed(Arms(p, movable), direction), Caps(p, softMax, movable), r)
    ensures GoesRight(w, p, movable, direction, amountLb, minRetain, softMax, deferred)
  {
    PassGains(w, p, movable, direction, amountLb, minRetain, softMax, deferred);
    if RoundLb(amountLb) > 0.0 && |movable| >= 2 {
      var sign := Signed(Arms(p, movable), direction);
      ShiftMomentIs(w, p, movable, direction, amountLb, minRetain, softMax, deferred, sign);
      var v := Moved(w, p, movable, direction, amountLb, minRetain, softMax, deferred).w;
      MovedRowsFit(w, p, movable, direction, amountLb, minRetain, softMax, deferred, v);
      SteadyRows(v, Caps(p, softMax, movable), sign, Rows(p, movable));
    }
  }

  lemma MovedRowsFit(w: Load, p: Profile, movable: seq<int>, direction: Direction, amountLb: real,
                     minRetain: Load, softMax: Load, deferred: set<int>, v: Load)
    requires ShiftReady(w, p, movable, minRetain, softMax) && WholeCapacity(p, movable, softMax)
    requires v == Moved(w, p, movable, direction, amountLb, minRetain, softMax, deferred).w
    ensures var cap := Caps(p, softMax, movable);
            forall r <- Rows(p, movable) :: r.0 < r.1 && WholeCaps(cap, r) && RowFits(v, cap, r)
                                            && At(v, r.0) <= At(cap, r.0) && At(v, r.1) <= At(cap, r.1)
  {
    var cap := Caps(p, softMax, movable);
    MovedFits(w, p, movable, direction, amountLb, minRetain, softMax, deferred);
    RowsHaveWholeCaps(p, movable, softMax);
    RowsAreSound(p, movable);
    forall r <- Rows(p, movable) ensures At(v, r.0) <= At(cap, r.0) && At(v, r.1) <= At(cap, r.1) {
      assert r.0 in movable && r.1 in movable;
    }
  }

  // ---- a row that slips ----

  /** `x` pounds on one station and nothing on the others. */
  function OnlyOn(movable: seq<int>, i: int, x: real): Load {
    map k | k in movable :: if k == i then x else 0.0
  }

  lemma OneLoadReady(p: Profile, movable: seq<int>, softMax: Load, i: int, x: real)
    requires NoDup(movable) && ArmsKnown(p, movable) && WholeCapacity(p, movable, softMax)
    requires i in movable && Whole(x) && 0.0 <= x <= EffectiveCap(p, softMax, i)
    ensures ShiftReady(OnlyOn(movable, i, x), p, movable, OnlyOn(movable, i, x), softMax)
  {
    assert Whole(0.0);
  }

  /** Nothing moves while every station is at its floor. */
  lemma FlooredRun(s: Shift, cap: Load, moves: seq<Move>)
    ensures Run(s, cap, s.w, moves) == s
    decreases moves
  {
    if moves != [] {
      assert Spare(s.w, s.w, moves[0].0) == 0.0;
      FlooredRun(s, cap, moves[1..]);
    }
  }

  lemma NothingMoves(w: Load, p: Profile, movable: seq<int>, direction: Direction, softMax: Load)
    requires |movable| >= 2
    ensures Moved(w, p, movable, direction, 1.0, w, softMax, {}) == Shift(w, 1.0, 0.0)
  {
    assert Whole(1.0);
    RoundWhole(1.0);
    FlooredRun(Shift(w, 1.0, 0.0), ShiftCaps(p, softMax, movable), MovesOf(p, movable, direction, {}));
  }

  lemma EmptyRow(w: Load, cap: Load, sign: Load, row: Row)
    requires row.0 < row.1 && WholeCaps(cap, row) && At(w, row.0) == 0.0 && At(w, row.1) == 0.0
    ensures RowDrift(w, cap, sign, row) == 0.0
  {
    assert Whole(0.0);
    RoundWhole(0.0);
    EvenRowIsEven(w, cap, row);
    assert At(EvenRow(w, cap, row), row.0) == 0.0;
  }

  lemma OneDrifts(w: Load, cap: Load, sign: Load, rows: seq<Row>, row: Row)
    requires Disjoint(rows) && forall r <- rows :: r.0 < r.1 && WholeCaps(cap, r)
    requires forall r <- rows :: r == row || (At(w, r.0) == 0.0 && At(w, r.1) == 0.0)
    ensures RowsDrift(w, cap, sign, rows) == if row in rows then RowDrift(w, cap, sign, row) else 0.0
  {
    if rows != [] {
      assert rows[0] in rows && rows == [rows[0]] + rows[1..];
      OneDrifts(w, cap, sign, rows[1..], row);
      if rows[0] == row {
        assert row !in rows[1..];
      } else {
        EmptyRow(w, cap, sign, rows[0]);
      }
    }
  }

  /** The seat that leads in a slipping row, and what to put there. */
  function Leader(sign: Load, row: Row): int {
    if At(sign, row.0) > At(sign, row.1) then row.0 else row.1
  }

  function Bait(sign: Load, row: Row): real {
    if At(sign, row.0) > At(sign, row.1) then 2.0 else 1.0
  }

  lemma SlipLoses(w: Load, cap: Load, sign: Load, row: Row)
    requires row.0 < row.1 && WholeCaps(cap, row) && Slips(sign, cap, row)
    requires At(w, row.0) == (if Leader(sign, row) == row.0 then Bait(sign, row) else 0.0)
    requires At(w, row.1) == (if Leader(sign, row) == row.1 then Bait(sign, row) else 0.0)
    ensures RowDrift(w, cap, sign, row) < 0.0
  {
    var r := EvenRow(w, cap, row);
    assert Whole(0.0) && Whole(1.0) && Whole(2.0);
    RoundWhole(2.0);
    RoundWhole(1.0);
    EvenRowIsEven(w, cap, row);
    if At(cap, row.0) > 0.0 {
      WholeApart(0.0, At(cap, row.0));
    }
    if At(cap, row.1) > 0.0 {
      WholeApart(0.0, At(cap, row.1));
    }
    assert At(r, row.0) == 1.0 by {
      if Leader(sign, row) == row.0 {
        EvenPairIsUnique(At(r, row.0), At(r, row.1), 1.0, 1.0, At(cap, row.0), At(cap, row.1));
      } else {
        EvenPairIsUnique(At(r, row.0), At(r, row.1), 1.0, 0.0, At(cap, row.0), At(cap, row.1));
      }
    }
    LeverLoses(At(sign, row.0) - At(sign, row.1), At(r, row.0) - At(w, row.0));
  }

  /** Pounds that rest on the leading seat of a slipping row, held there by the floors: nothing moves, and
      balancing takes one of them back. */
  lemma SlippingShift(p: Profile, movable: seq<int>, direction: Direction, softMax: Load, row: Row)
    requires NoDup(movable) && ArmsKnown(p, movable) && WholeCapacity(p, movable, softMax) && |movable| >= 2
    requires row in Rows(p, movable) && Slips(Signed(Arms(p, movable), direction), Caps(p, softMax, movable), row)
    ensures var sign := Signed(Arms(p, movable), direction);
            var w := OnlyOn(movable, Leader(sign, row), Bait(sign, row));
            ShiftReady(w, p, movable, w, softMax) && !GoesRight(w, p, movable, direction, 1.0, w, softMax, {})
  {
    var sign, cap := Signed(Arms(p, movable), direction), Caps(p, softMax, movable);
    var w := OnlyOn(movable, Leader(sign, row), Bait(sign, row));
    RowsAreSound(p, movable);
    RowsHaveWholeCaps(p, movable, softMax);
    assert Whole(1.0) && Whole(2.0);
    OneLoadReady(p, movable, softMax, Leader(sign, row), Bait(sign, row));
    NothingMoves(w, p, movable, direction, softMax);
    RoundWhole(1.0);
    ShiftMomentIs(w, p, movable, direction, 1.0, w, softMax, {}, sign);
    SlipLoses(w, cap, sign, row);
    OthersEmpty(w, p, movable, row, Leader(sign, row));
    OneDrifts(w, cap, sign, Rows(p, movable), row);
  }

  lemma OthersEmpty(w: Load, p: Profile, movable: seq<int>, row: Row, i: int)
    requires row in Rows(p, movable) && (i == row.0 || i == row.1) && forall k | k != i :: At(w, k) == 0.0
    ensures Disjoint(Rows(p, movable))
    ensures forall r <- Rows(p, movable) :: r.0 < r.1 && r.0 in movable && r.1 in movable
    ensures forall r <- Rows(p, movable) :: r == row || (At(w, r.0) == 0.0 && At(w, r.1) == 0.0)
  {
    var rows := Rows(p, movable);
    RowsAreSound(p, movable);
    var j :| 0 <= j < |rows| && rows[j] == row;
    forall r <- rows ensures r == row || (At(w, r.0) == 0.0 && At(w, r.1) == 0.0) {
      var k :| 0 <= k < |rows| && rows[k] == r;
    }
  }

  lemma RowsHaveWholeCaps(p: Profile, movable: seq<int>, softMax: Load)
    requires WholeCapacity(p, movable, softMax)
    ensures forall r <- Rows(p, movable) :: WholeCaps(Caps(p, softMax, movable), r)
  {
    RowsAreSound(p, movable);
    forall r <- Rows(p, movable) ensures WholeCaps(Caps(p, softMax, movable), r) {
      assert r.0 in movable && r.1 in movable;
    }
  }

  /** A shift goes the right way for every load, amount, floor and deferral exactly when no row of the
      profile slips. */
  lemma ShiftGoesRightIff(p: Profile, movable: seq<int>, direction: Direction, softMax: Load)
    requires NoDup(movable) && ArmsKnown(p, movable) && WholeCapacity(p, movable, softMax) && |movable| >= 2
    ensures (forall w: Load, amountLb: real, minRetain: Load, deferred: set<int> ::
               ShiftReady(w, p, movable, minRetain, softMax)
               ==> GoesRight(w, p, movable, direction, amountLb, minRetain, softMax, deferred))
            <==> forall r <- Rows(p, movable) :: !Slips(Signed(Arms(p, movable), direction), Caps(p, softMax, movable), r)
  {
    var sign, cap := Signed(Arms(p, movable), direction), Caps(p, softMax, movable);
    if forall r <- Rows(p, movable) :: !Slips(sign, cap, r) {
      forall w: Load, amountLb: real, minRetain: Load, deferred: set<int> | ShiftReady(w, p, movable, minRetain, softMax)
        ensures GoesRight(w, p, movable, direction, amountLb, minRetain, softMax, deferred)
      {
        SteadyShift(w, p, movable, direction, amountLb, minRetain, softMax, deferred);
      }
    } else {
      var row :| row in Rows(p, movable) && Slips(sign, cap, row);
      SlippingShift(p, movable, direction, softMax, row);
    }
  }
}
