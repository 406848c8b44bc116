/** What balancing one row of two seats comes to, in closed form: the lower index gets the odd pound,
    and a difference is left only where the lighter seat is full. */
module {:induction false} RowBalance {
  import opened Options
  import opened Weights
  import opened Stations
  import opened WaterFill
  import opened LateralRows

  /** Weights `a` and `b` of the lower and the higher index, under caps `ca` and `cb`. */
  predicate EvenPair(a: real, b: real, ca: real, cb: real) {
    (b > a ==> a == ca) && (a > b + 1.0 ==> b == cb)
  }

  predicate PairFits(a: real, b: real, ca: real, cb: real) {
    a <= ca && b <= cb
  }

  lemma IntsApart(m: int, n: int)
    requires m as real < n as real
    ensures m as real + 1.0 <= n as real
  {
    assert m < n;
    assert (m + 1) as real == m as real + 1.0;
  }

  lemma WholeApart(a: real, b: real)
    requires Whole(a) && Whole(b) && a < b
    ensures a + 1.0 <= b
  {
    IntsApart(a.Floor, b.Floor);
  }

  /** Whole pounds of one total can be even in one way only. */
  lemma EvenPairIsUnique(a: real, b: real, x: real, y: real, ca: real, cb: real)
    requires Whole(a) && Whole(b) && Whole(x) && Whole(y) && a + b == x + y
    requires PairFits(a, b, ca, cb) && EvenPair(a, b, ca, cb) && PairFits(x, y, ca, cb) && EvenPair(x, y, ca, cb)
    ensures a == x && b == y
  {
    if a > x {
      WholeApart(x, a);
    } else if x > a {
      WholeApart(a, x);
    }
  }

  // ---- the fill of a pair ----

  /** State of the fill: whole pounds, within whole caps, even so far. */
  ghost predicate PairEven(w: Load, cap: Load, row: Row) {
    && Whole(At(w, row.0)) && Whole(At(w, row.1)) && Whole(At(cap, row.0)) && Whole(At(cap, row.1))
    && PairFits(At(w, row.0), At(w, row.1), At(cap, row.0), At(cap, row.1))
    && EvenPair(At(w, row.0), At(w, row.1), At(cap, row.0), At(cap, row.1))
  }

  /** A dose of a whole fill is one pound. */
  lemma DoseIsOne(weight: real, cap: real, amount: real)
    requires Whole(weight) && Whole(cap) && Whole(amount) && weight < cap && amount > 0.0
    ensures Min(1.0, Min(amount, cap - weight)) == 1.0
    ensures Whole(weight + 1.0) && Whole(amount - 1.0) && amount >= 1.0
  {
    assert Whole(0.0) && Whole(1.0);
    WholeApart(weight, cap);
    WholeApart(0.0, amount);
    WholeSum(weight, 1.0);
    WholeSum(0.0, 1.0);
    WholeSum(amount, -1.0);
  }

  lemma PairTurn(w: Load, cap: Load, row: Row, amount: real) returns (v: Load, rest: real)
    requires row.0 < row.1 && PairEven(w, cap, row) && Whole(amount) && Flows(w, cap, [row.0, row.1], amount)
    ensures PairEven(v, cap, row) && Whole(rest)
    ensures Pour(w, cap, [row.0, row.1], amount) == Pour(v, cap, [row.0, row.1], rest)
    ensures |Open(v, cap, [row.0, row.1])| + CeilNat(rest) < |Open(w, cap, [row.0, row.1])| + CeilNat(amount)
  {
    var i, take, u := PourTurn(w, cap, [row.0, row.1], amount);
    v, rest := u, amount - take;
    TurnKeepsEven(w, v, cap, row, amount, i, take);
  }

  lemma TurnKeepsEven(w: Load, v: Load, cap: Load, row: Row, amount: real, i: int, take: real)
    requires row.0 < row.1 && PairEven(w, cap, row) && Whole(amount) && amount > 0.0
    requires Open(w, cap, [row.0, row.1]) != [] && i == Lightest(w, Open(w, cap, [row.0, row.1]))
    requires (i == row.0 || i == row.1) && At(w, i) < At(cap, i)
    requires take == Dose(w, cap, i, amount) && v == w[i := At(w, i) + take]
    ensures PairEven(v, cap, row) && Whole(amount - take)
  {
    WholeDose(w, cap, row, i, amount);
    FirstIsLightest(w, cap, row, i);
    PoundStaysEven(w, v, cap, row, i);
  }

  lemma WholeDose(w: Load, cap: Load, row: Row, i: int, amount: real)
    requires PairEven(w, cap, row) && Whole(amount) && amount > 0.0 && (i == row.0 || i == row.1) && At(w, i) < At(cap, i)
    ensures Dose(w, cap, i, amount) == 1.0 && Whole(At(w, i) + 1.0) && Whole(amount - 1.0)
  {
    DoseIsOne(At(w, i), At(cap, i), amount);
  }

  lemma PoundStaysEven(w: Load, v: Load, cap: Load, row: Row, i: int)
    requires row.0 < row.1 && PairEven(w, cap, row) && (i == row.0 || i == row.1)
    requires At(w, i) < At(cap, i) && v == w[i := At(w, i) + 1.0] && Whole(At(v, i))
    requires i == row.0 ==> At(w, row.1) >= At(cap, row.1) || At(w, row.0) <= At(w, row.1)
    requires i == row.1 ==> At(w, row.0) >= At(cap, row.0) || At(w, row.1) < At(w, row.0)
    ensures PairEven(v, cap, row)
  {
    TurnStaysEven(At(w, row.0), At(w, row.1), At(cap, row.0), At(cap, row.1), i == row.0);
  }

  /** The seat served first is open and, if the other one is open too, comes before it. */
  lemma FirstIsLightest(w: Load, cap: Load, row: Row, i: int)
    requires row.0 < row.1 && Open(w, cap, [row.0, row.1]) != [] && i == Lightest(w, Open(w, cap, [row.0, row.1]))
    ensures i == row.0 ==> At(w, row.1) >= At(cap, row.1) || At(w, row.0) <= At(w, row.1)
    ensures i == row.1 ==> At(w, row.0) >= At(cap, row.0) || At(w, row.1) < At(w, row.0)
  {
    var ids := [row.0, row.1];
    if At(w, row.0) < At(cap, row.0) {
      TurnIsLightest(w, cap, ids, row.0);
    }
    if At(w, row.1) < At(cap, row.1) {
      TurnIsLightest(w, cap, ids, row.1);
    }
  }

  lemma TurnStaysEven(a: real, b: real, ca: real, cb: real, lower: bool)
    requires Whole(a) && Whole(b) && Whole(ca) && Whole(cb) && PairFits(a, b, ca, cb) && EvenPair(a, b, ca, cb)
    requires lower ==> a < ca && (b >= cb || a <= b)
    requires !lower ==> b < cb && (a >= ca || b < a)
    ensures lower ==> PairFits(a + 1.0, b, ca, cb) && EvenPair(a + 1.0, b, ca, cb)
    ensures !lower ==> PairFits(a, b + 1.0, ca, cb) && EvenPair(a, b + 1.0, ca, cb)
  {
    if lower {
      WholeApart(a, ca);
    } else {
      WholeApart(b, cb);
      if b < a {
        WholeApart(b, a);
      }
    }
  }

  lemma PairPour(w: Load, cap: Load, row: Row, amount: real)
    requires row.0 < row.1 && PairEven(w, cap, row) && Whole(amount)
    ensures PairEven(Pour(w, cap, [row.0, row.1], amount), cap, row)
    decreases |Open(w, cap, [row.0, row.1])| + CeilNat(amount)
  {
    if Flows(w, cap, [row.0, row.1], amount) {
      var v, rest := PairTurn(w, cap, row, amount);
      PairPour(v, cap, row, rest);
    }
  }

  // ---- a balanced row ----

  ghost predicate WholeCaps(cap: Load, row: Row) {
    Whole(At(cap, row.0)) && Whole(At(cap, row.1)) && At(cap, row.0) >= 0.0 && At(cap, row.1) >= 0.0
  }

  /** Under whole caps a balanced row is even, and holds its rounded total or all it can. */
  lemma EvenRowIsEven(w: Load, cap: Load, row: Row)
    requires row.0 < row.1 && WholeCaps(cap, row)
    ensures PairEven(EvenRow(w, cap, row), cap, row)
    ensures At(EvenRow(w, cap, row), row.0) + At(EvenRow(w, cap, row), row.1)
         == Min(RowTotal(w, row), At(cap, row.0) + At(cap, row.1))
    ensures At(EvenRow(w, cap, row), row.0) >= 0.0 && At(EvenRow(w, cap, row), row.1) >= 0.0
  {
    var z := w[row.0 := 0.0][row.1 := 0.0];
    assert Whole(0.0);
    RoundWhole(Max(0.0, At(w, row.0)) + Max(0.0, At(w, row.1)));
    PairPour(z, cap, row, RowTotal(w, row));
    EvenRowShares(w, cap, row);
  }

  /** A row that balancing leaves as it is: whole pounds within the caps, and even. */
  ghost predicate AlreadyEven(w: Load, cap: Load, row: Row) {
    && Whole(At(w, row.0)) && PairFits(At(w, row.0), At(w, row.1), At(cap, row.0), At(cap, row.1))
    && EvenPair(At(w, row.0), At(w, row.1), At(cap, row.0), At(cap, row.1))
  }

  /** Balancing a row that fits leaves it alone exactly when it is even already. */
  lemma AlreadyEvenIff(w: Load, cap: Load, row: Row)
    requires row.0 < row.1 && WholeCaps(cap, row) && RowFits(w, cap, row)
    ensures At(EvenRow(w, cap, row), row.0) == At(w, row.0) <==> AlreadyEven(w, cap, row)
    ensures At(EvenRow(w, cap, row), row.0) + At(EvenRow(w, cap, row), row.1) == At(w, row.0) + At(w, row.1)
  {
    var r := EvenRow(w, cap, row);
    var total := At(w, row.0) + At(w, row.1);
    EvenRowIsEven(w, cap, row);
    RoundWhole(total);
    if AlreadyEven(w, cap, row) {
      WholeSum(total, -At(w, row.0)) by {
        assert Whole(At(w, row.0));
        WholeSum(0.0, At(w, row.0));
      }
      EvenPairIsUnique(At(r, row.0), At(r, row.1), At(w, row.0), At(w, row.1), At(cap, row.0), At(cap, row.1));
    }
  }

  // ---- its moment ----

  /** Two loads that differ in one pair only, with the same pair total: the moment moves by the arm gap
      times the pounds that change seats. */
  lemma PairMoment(w: Load, r: Load, arm: Load, row: Row, gap: real, drift: real, all: seq<int>) returns (moved: real)
    requires NoDup(all) && row.0 in all && row.1 in all && row.0 != row.1 && DifferOnlyAt(w, r, row.0, row.1, all)
    requires At(r, row.0) + At(r, row.1) == At(w, row.0) + At(w, row.1)
    requires gap == At(arm, row.0) - At(arm, row.1) && drift == At(r, row.0) - At(w, row.0)
    ensures moved == gap * drift && Moment(r, arm, all) == Moment(w, arm, all) + moved
  {
    var v := Transfer(w, row.1, row.0, drift);
    assert Moment(v, arm, all) == Moment(r, arm, all) by {
      MomentFrame(v, r, arm, all);
    }
    moved := TransferBy(w, v, arm, row.1, row.0, drift, all);
  }

  lemma EvenRowDiffers(w: Load, cap: Load, row: Row, all: seq<int>)
    ensures DifferOnlyAt(w, EvenRow(w, cap, row), row.0, row.1, all)
  {
    forall k <- all | k != row.0 && k != row.1 ensures At(EvenRow(w, cap, row), k) == At(w, k) {
      EvenRowElsewhere(w, cap, row, k);
    }
  }

  lemma MovedIff(moved: real, gap: real, drift: real)
    requires moved == gap * drift
    ensures moved == 0.0 <==> gap == 0.0 || drift == 0.0
  {
  }

  lemma PairMomentIff(w: Load, r: Load, arm: Load, row: Row, all: seq<int>)
    requires NoDup(all) && row.0 in all && row.1 in all && row.0 != row.1 && DifferOnlyAt(w, r, row.0, row.1, all)
    requires At(r, row.0) + At(r, row.1) == At(w, row.0) + At(w, row.1)
    ensures Moment(r, arm, all) == Moment(w, arm, all) <==> LevelRow(arm, row) || At(r, row.0) == At(w, row.0)
  {
    var gap, drift := At(arm, row.0) - At(arm, row.1), At(r, row.0) - At(w, row.0);
    var moved := PairMoment(w, r, arm, row, gap, drift, all);
    assert moved == 0.0 <==> gap == 0.0 || drift == 0.0 by {
      MovedIff(moved, gap, drift);
    }
  }

  /** Balancing a row that fits keeps the moment exactly when the row is on one arm or even already. */
  lemma EvenRowMomentIff(w: Load, cap: Load, arm: Load, row: Row, all: seq<int>)
    requires NoDup(all) && row.0 in all && row.1 in all && row.0 < row.1
    requires WholeCaps(cap, row) && RowFits(w, cap, row)
    ensures Moment(EvenRow(w, cap, row), arm, all) == Moment(w, arm, all) <==> LevelRow(arm, row) || AlreadyEven(w, cap, row)
  {
    EvenRowDiffers(w, cap, row, all);
    AlreadyEvenIff(w, cap, row);
    PairMomentIff(w, EvenRow(w, cap, row), arm, row, all);
  }

  // ---- all rows ----

  function Lever(gap: real, pounds: real): real {
    gap * pounds
  }

  /** Moment that balancing one row adds: the pounds that change seats times the distance. */
  function RowDrift(w: Load, cap: Load, arm: Load, row: Row): real {
    Lever(At(arm, row.0) - At(arm, row.1), At(EvenRow(w, cap, row), row.0) - At(w, row.0))
  }

  function RowsDrift(w: Load, cap: Load, arm: Load, rows: seq<Row>): real {
    if rows == [] then 0.0 else RowDrift(w, cap, arm, rows[0]) + RowsDrift(w, cap, arm, rows[1..])
  }

  lemma RowDriftLocal(w: Load, v: Load, cap: Load, arm: Load, row: Row)
    requires At(v, row.0) == At(w, row.0) && At(v, row.1) == At(w, row.1)
    ensures RowDrift(v, cap, arm, row) == RowDrift(w, cap, arm, row)
  {
    EvenRowLocal(v, w, cap, row);
  }

  lemma DriftLocal(w: Load, v: Load, cap: Load, arm: Load, rows: seq<Row>)
    requires forall r <- rows :: At(v, r.0) == At(w, r.0) && At(v, r.1) == At(w, r.1)
    ensures RowsDrift(v, cap, arm, rows) == RowsDrift(w, cap, arm, rows)
  {
    if rows != [] {
      assert rows[0] in rows;
      assert RowDrift(v, cap, arm, rows[0]) == RowDrift(w, cap, arm, rows[0]) by {
        RowDriftLocal(w, v, cap, arm, rows[0]);
      }
      DriftLocal(w, v, cap, arm, rows[1..]);
    }
  }

  lemma RowMoment(w: Load, cap: Load, arm: Load, row: Row, all: seq<int>) returns (moved: real)
    requires NoDup(all) && row.0 in all && row.1 in all && row.0 != row.1
    requires At(cap, row.0) >= 0.0 && At(cap, row.1) >= 0.0 && RowFits(w, cap, row)
    ensures moved == RowDrift(w, cap, arm, row) && Moment(EvenRow(w, cap, row), arm, all) == Moment(w, arm, all) + moved
  {
    var r := EvenRow(w, cap, row);
    var gap, drift := At(arm, row.0) - At(arm, row.1), At(r, row.0) - At(w, row.0);
    EvenRowDiffers(w, cap, row, all);
    EvenRowKeepsMassIff(w, cap, row);
    moved := PairMoment(w, r, arm, row, gap, drift, all);
    assert moved == Lever(gap, drift);
  }

  lemma OthersFit(w: Load, cap: Load, rows: seq<Row>)
    requires rows != [] && Disjoint(rows) && RowsFit(w, cap, rows)
    ensures var v := EvenRow(w, cap, rows[0]);
            && RowsFit(v, cap, rows[1..])
            && forall r <- rows[1..] :: At(v, r.0) == At(w, r.0) && At(v, r.1) == At(w, r.1)
  {
    var v := EvenRow(w, cap, rows[0]);
    forall r <- rows[1..] ensures RowFits(v, cap, r) && At(v, r.0) == At(w, r.0) && At(v, r.1) == At(w, r.1) {
      var k :| 0 <= k < |rows[1..]| && rows[1..][k] == r;
      assert r == rows[k + 1] && r in rows;
      EvenRowElsewhere(w, cap, rows[0], r.0);
      EvenRowElsewhere(w, cap, rows[0], r.1);
    }
  }

  /** Balancing changes the moment by the sum of what its rows drift. */
  lemma EvenRowsMoment(w: Load, cap: Load, arm: Load, rows: seq<Row>, all: seq<int>)
    requires NoDup(all) && RowsIn(rows, all) && Disjoint(rows)
    requires CapsNonNegative(cap, rows) && RowsFit(w, cap, rows)
    ensures Moment(EvenRows(w, cap, rows), arm, all) == Moment(w, arm, all) + RowsDrift(w, cap, arm, rows)
    decreases rows
  {
    if rows != [] {
      var v := EvenRow(w, cap, rows[0]);
      assert rows[0] in rows;
      var moved := RowMoment(w, cap, arm, rows[0], all);
      OthersFit(w, cap, rows);
      EvenRowsMoment(v, cap, arm, rows[1..], all);
      DriftLocal(w, v, cap, arm, rows[1..]);
    }
  }
}
