/** Placement rounds: `allocateCargoRoundPerSeat` adds up to a step on each target, and
    `longitudinalHalfIndexes` picks the forward or aft half without splitting a row. */
module {:induction false} CargoRounds {
  import opened Options
  import opened Weights
  import opened Stations
  import opened Sorting
  import opened WaterFill
  import opened LateralRows
  import opened CgShift
  import opened CgShiftLaws
  import opened FillStage

  datatype Bias = Equal | Toward(direction: Direction)

  /** The first or last half of the order, at least one station. */
  function Half(order: seq<int>, direction: Direction): seq<int> {
    var half := (|order| + 1) / 2;
    if direction == Forward then order[..half] else order[|order| - half..]
  }

  /** Whole rows for every row the selection touches. */
  function Expand(selected: set<int>, rows: seq<Row>): set<int>
    decreases rows
  {
    if rows == [] then selected
    else Expand(if rows[0].0 in selected || rows[0].1 in selected then selected + {rows[0].0, rows[0].1} else selected, rows[1..])
  }

  /** The forward or aft half of the stations, rows kept whole. */
  function HalfIndexes(p: Profile, ids: seq<int>, direction: Direction): seq<int> {
    var order := ForwardFirst(p, ids);
    Only(order, Expand((set i | i in Half(order, direction)), Rows(p, ids)))
  }

  function RoundTargets(p: Profile, ids: seq<int>, bias: Bias): seq<int> {
    match bias
    case Equal => ForwardFirst(p, ids)
    case Toward(direction) => HalfIndexes(p, ids, direction)
  }

  function LighterFirst(w: Load): (int, int) -> bool {
    (a: int, b: int) => Before(w, a, b)
  }

  datatype Placement = Placement(w: Load, budget: real, moved: real)

  function PlaceOne(s: Placement, cap: Load, perSeat: real, i: int): Placement {
    var take := Min(perSeat, Min(Max(0.0, At(cap, i) - At(s.w, i)), s.budget));
    if take <= 0.0 then s else Placement(s.w[i := At(s.w, i) + take], s.budget - take, s.moved + take)
  }

  function PlaceEach(s: Placement, cap: Load, perSeat: real, ids: seq<int>): Placement
    decreases ids
  {
    if ids == [] then s else PlaceEach(PlaceOne(s, cap, perSeat, ids[0]), cap, perSeat, ids[1..])
  }

  predicate NothingToDo(ids: seq<int>, perSeatLb: real, budgetLb: real) {
    RoundLb(budgetLb) <= 0.0 || RoundLb(perSeatLb) <= 0.0 || ids == []
  }

  /** The round before its rows are balanced. */
  function Placed(w: Load, p: Profile, ids: seq<int>, perSeatLb: real, bias: Bias, budgetLb: real, softMax: Load): Placement {
    var start := Placement(w, Max(0.0, RoundLb(budgetLb)), 0.0);
    if NothingToDo(ids, perSeatLb, budgetLb) then start
    else PlaceEach(start, ShiftCaps(p, softMax, ids), RoundLb(perSeatLb), SortBy(RoundTargets(p, ids, bias), LighterFirst(w)))
  }

  /** The layout after the round. */
  function AfterRound(w: Load, p: Profile, ids: seq<int>, perSeatLb: real, bias: Bias, budgetLb: real, softMax: Load): Load {
    if NothingToDo(ids, perSeatLb, budgetLb) then w
    else Balanced(Placed(w, p, ids, perSeatLb, bias, budgetLb, softMax).w, p, ids, softMax)
  }

  // ---- targets ----

  /** A row of the list that holds `i` and touches the selection. */
  ghost predicate Touches(selected: set<int>, rows: seq<Row>, i: int) {
    exists r :: r in rows && (r.0 == i || r.1 == i) && (r.0 in selected || r.1 in selected)
  }

  function Grown(selected: set<int>, row: Row): set<int> {
    if row.0 in selected || row.1 in selected then selected + {row.0, row.1} else selected
  }

  /** Disjoint rows cannot touch more after the first one has grown the selection. */
  lemma TouchesRest(selected: set<int>, rows: seq<Row>, i: int)
    requires Disjoint(rows) && rows != []
    ensures Touches(Grown(selected, rows[0]), rows[1..], i) <==> Touches(selected, rows[1..], i)
  {
    forall r <- rows[1..] ensures r.0 != rows[0].0 && r.0 != rows[0].1 && r.1 != rows[0].0 && r.1 != rows[0].1 {
      var k :| 0 <= k < |rows[1..]| && rows[1..][k] == r;
      assert rows[k + 1] == r;
    }
  }

  lemma TouchesFirst(selected: set<int>, rows: seq<Row>, i: int)
    requires rows != []
    ensures Touches(selected, rows, i)
            <==> i in Grown(selected, rows[0]) - selected || (i in selected && Touches(selected, [rows[0]], i))
                 || Touches(selected, rows[1..], i)
  {
    var row := rows[0];
    assert rows == [row] + rows[1..];
    assert row in [row] && row in rows;
  }

  lemma {:induction false} ExpandHas(selected: set<int>, rows: seq<Row>, i: int)
    requires Disjoint(rows) && forall r <- rows :: r.0 != r.1
    ensures i in Expand(selected, rows) <==> i in selected || Touches(selected, rows, i)
    decreases rows
  {
    if rows != [] {
      assert rows == [rows[0]] + rows[1..];
      ExpandHas(Grown(selected, rows[0]), rows[1..], i);
      TouchesRest(selected, rows, i);
      TouchesFirst(selected, rows, i);
    }
  }

  lemma OrderHas(p: Profile, ids: seq<int>, i: int)
    requires i in ids && Known(p, i)
    ensures i in ForwardFirst(p, ids)
  {
    var ss := Resolve(p, ids);
    LookupHit(p, i);
    var s := Lookup(p, i).value;
    ResolveMember(p, ids, s);
    SortHas(ids, Ascending, i);
    if |ss| > 0 && AllHaveArms(ss) {
      SortHas(ss, ArmDescending, s);
      var xs := SortBy(ss, ArmDescending);
      var k :| 0 <= k < |xs| && xs[k] == s;
      assert Indexes(xs)[k] == i;
    }
  }

  /** A biased selection is a union of whole rows and single stations: a row is in it with both
      seats or not at all. */
  lemma HalvesKeepRowsWhole(p: Profile, ids: seq<int>, direction: Direction, row: Row)
    requires row in Rows(p, ids)
    ensures row.0 in HalfIndexes(p, ids, direction) <==> row.1 in HalfIndexes(p, ids, direction)
  {
    var order := ForwardFirst(p, ids);
    var start := set i | i in Half(order, direction);
    RowsAreSound(p, ids);
    BothOrNeither(start, Rows(p, ids), row);
    OrderHas(p, ids, row.0);
    OrderHas(p, ids, row.1);
    WithoutHas(order, Expand(start, Rows(p, ids)), row.0);
    WithoutHas(order, Expand(start, Rows(p, ids)), row.1);
  }

  lemma BothOrNeither(selected: set<int>, rows: seq<Row>, row: Row)
    requires Disjoint(rows) && (forall r <- rows :: r.0 != r.1) && row in rows
    ensures row.0 in Expand(selected, rows) <==> row.1 in Expand(selected, rows)
  {
    ExpandHas(selected, rows, row.0);
    ExpandHas(selected, rows, row.1);
    RowOnce(rows, row);
  }

  /** No other row shares a seat. */
  lemma RowOnce(rows: seq<Row>, row: Row)
    requires Disjoint(rows) && row in rows
    ensures forall r <- rows :: r.0 == row.0 || r.1 == row.0 || r.0 == row.1 || r.1 == row.1 ==> r == row
  {
    var j :| 0 <= j < |rows| && rows[j] == row;
    forall r <- rows | r.0 == row.0 || r.1 == row.0 || r.0 == row.1 || r.1 == row.1 ensures r == row {
      var k :| 0 <= k < |rows| && rows[k] == r;
      assert k == j;
    }
  }

  lemma {:induction false} OnlyNoDup(s: seq<int>, chosen: set<int>)
    requires NoDup(s)
    ensures NoDup(Only(s, chosen))
  {
    if s != [] {
      OnlyNoDup(s[1..], chosen);
      WithoutHas(s[1..], chosen, s[0]);
    }
  }

  lemma TargetsWithin(p: Profile, ids: seq<int>, bias: Bias)
    requires NoDup(ids)
    ensures NoDup(RoundTargets(p, ids, bias)) && Within(RoundTargets(p, ids, bias), ids)
  {
    var order := ForwardFirst(p, ids);
    OrderNoDup(p, ids);
    if bias.Toward? {
      var chosen := Expand((set i | i in Half(order, bias.direction)), Rows(p, ids));
      OnlyNoDup(order, chosen);
      forall i <- RoundTargets(p, ids, bias) ensures i in ids {
        WithoutHas(order, chosen, i);
        OrderMembers(p, ids, i);
      }
    } else {
      forall i <- order ensures i in ids {
        OrderMembers(p, ids, i);
      }
    }
  }

  // ---- the round ----

  /** Every pound reported is on a station and out of the budget. */
  lemma {:induction false} PlaceEachLaw(s: Placement, cap: Load, perSeat: real, ids: seq<int>, all: seq<int>)
    requires NoDup(all) && Within(ids, all) && s.budget >= 0.0
    ensures var r := PlaceEach(s, cap, perSeat, ids);
            && Sum(r.w, all) == Sum(s.w, all) + (r.moved - s.moved)
            && r.budget + r.moved == s.budget + s.moved
            && r.budget >= 0.0 && r.moved >= s.moved
    decreases ids
  {
    if ids != [] {
      var t := PlaceOne(s, cap, perSeat, ids[0]);
      assert ids[0] in ids;
      SumUpdate(s.w, ids[0], At(t.w, ids[0]), all);
      PlaceEachLaw(t, cap, perSeat, ids[1..], all);
    }
  }

  /** `n` steps of the same size. */
  function Steps(perSeat: real, n: nat): real {
    if n == 0 then 0.0 else perSeat + Steps(perSeat, n - 1)
  }

  lemma {:induction false} StepsAre(perSeat: real, n: nat)
    ensures Steps(perSeat, n) == perSeat * n as real
  {
    if n > 0 {
      StepsAre(perSeat, n - 1);
      assert perSeat * n as real == perSeat * (n - 1) as real + perSeat;
    }
  }

  /** No more than one step per target. */
  lemma {:induction false} PlaceEachLimit(s: Placement, cap: Load, perSeat: real, ids: seq<int>)
    requires perSeat >= 0.0
    ensures PlaceEach(s, cap, perSeat, ids).moved <= s.moved + Steps(perSeat, |ids|)
    decreases ids
  {
    if ids != [] {
      PlaceEachLimit(PlaceOne(s, cap, perSeat, ids[0]), cap, perSeat, ids[1..]);
    }
  }

  lemma {:induction false} PlaceEachBounds(s: Placement, cap: Load, perSeat: real, ids: seq<int>, i: int)
    ensures var r := PlaceEach(s, cap, perSeat, ids);
            && At(s.w, i) <= At(r.w, i) <= Max(At(s.w, i), At(cap, i))
            && (i !in ids ==> At(r.w, i) == At(s.w, i))
    decreases ids
  {
    if ids != [] {
      PlaceEachBounds(PlaceOne(s, cap, perSeat, ids[0]), cap, perSeat, ids[1..], i);
      assert ids == [ids[0]] + ids[1..];
    }
  }

  lemma {:induction false} PlaceEachWhole(s: Placement, cap: Load, perSeat: real, ids: seq<int>, all: seq<int>)
    requires Within(ids, all) && WholeOn(s.w, all) && WholeOn(cap, all) && Whole(perSeat) && Whole(s.budget)
    ensures var r := PlaceEach(s, cap, perSeat, ids);
            WholeOn(r.w, all) && Whole(r.budget)
    decreases ids
  {
    if ids != [] {
      assert ids[0] in ids;
      PlaceOneWhole(s, cap, perSeat, ids[0], all);
      PlaceEachWhole(PlaceOne(s, cap, perSeat, ids[0]), cap, perSeat, ids[1..], all);
    }
  }

  lemma PlaceOneWhole(s: Placement, cap: Load, perSeat: real, i: int, all: seq<int>)
    requires i in all && WholeOn(s.w, all) && WholeOn(cap, all) && Whole(perSeat) && Whole(s.budget)
    ensures var t := PlaceOne(s, cap, perSeat, i);
            WholeOn(t.w, all) && Whole(t.budget)
  {
    var take := Min(perSeat, Min(Max(0.0, At(cap, i) - At(s.w, i)), s.budget));
    if take > 0.0 {
      assert Whole(0.0);
      WholeSum(0.0, At(s.w, i));
      WholeSum(At(cap, i), -At(s.w, i));
      WholeSum(0.0, take);
      WholeSum(At(s.w, i), take);
      WholeSum(s.budget, -take);
      WholeStep(s.w, all, i, At(s.w, i) + take, i);
    }
  }

  /** Nothing is placed only when the budget or the step is zero or every target is full. */
  lemma {:induction false} PlaceEachStalls(s: Placement, cap: Load, perSeat: real, ids: seq<int>)
    requires s.budget > 0.0 && perSeat > 0.0
    ensures PlaceEach(s, cap, perSeat, ids).moved == s.moved <==> forall i <- ids :: At(cap, i) <= At(s.w, i)
    decreases ids
  {
    if ids != [] {
      var t := PlaceOne(s, cap, perSeat, ids[0]);
      assert ids == [ids[0]] + ids[1..];
      PlaceEachGrows(t, cap, perSeat, ids[1..]);
      if t == s {
        PlaceEachStalls(s, cap, perSeat, ids[1..]);
      }
    }
  }

  lemma {:induction false} PlaceEachGrows(s: Placement, cap: Load, perSeat: real, ids: seq<int>)
    ensures PlaceEach(s, cap, perSeat, ids).moved >= s.moved
    decreases ids
  {
    if ids != [] {
      PlaceEachGrows(PlaceOne(s, cap, perSeat, ids[0]), cap, perSeat, ids[1..]);
    }
  }

  /** Whole pounds, within caps, on known stations. */
  ghost predicate RoundReady(w: Load, p: Profile, ids: seq<int>, softMax: Load) {
    ShiftReady(w, p, ids, map[], softMax)
  }

  lemma OrderedTargets(w: Load, p: Profile, ids: seq<int>, bias: Bias)
    requires NoDup(ids)
    ensures var ts := SortBy(RoundTargets(p, ids, bias), LighterFirst(w));
            && Within(ts, ids) && NoDup(ts)
            && |ts| == |RoundTargets(p, ids, bias)|
            && forall i :: i in ts <==> i in RoundTargets(p, ids, bias)
  {
    var targets := RoundTargets(p, ids, bias);
    var ts := SortBy(targets, LighterFirst(w));
    TargetsWithin(p, ids, bias);
    SortNoDup(targets, LighterFirst(w));
    SortHas(targets, LighterFirst(w), 0);
    forall i ensures i in ts <==> i in targets {
      SortHas(targets, LighterFirst(w), i);
    }
  }

  lemma PlacedFits(w: Load, p: Profile, ids: seq<int>, perSeatLb: real, bias: Bias, budgetLb: real, softMax: Load)
    requires RoundReady(w, p, ids, softMax)
    ensures var s := Placed(w, p, ids, perSeatLb, bias, budgetLb, softMax);
            && WholeOn(s.w, ids) && Whole(s.budget)
            && forall i <- ids :: 0.0 <= At(s.w, i) <= EffectiveCap(p, softMax, i)
  {
    var start := Placement(w, Max(0.0, RoundLb(budgetLb)), 0.0);
    var caps := Caps(p, softMax, ids);
    assert ShiftCaps(p, softMax, ids) == caps;
    RoundWhole(budgetLb);
    RoundWhole(perSeatLb);
    assert Whole(0.0);
    var ts := if NothingToDo(ids, perSeatLb, budgetLb) then [] else SortBy(RoundTargets(p, ids, bias), LighterFirst(w));
    var step := if NothingToDo(ids, perSeatLb, budgetLb) then 0.0 else RoundLb(perSeatLb);
    OrderedTargets(w, p, ids, bias);
    PlaceEachWhole(start, caps, step, ts, ids);
    forall i <- ids ensures 0.0 <= At(PlaceEach(start, caps, step, ts).w, i) <= EffectiveCap(p, softMax, i) {
      PlaceEachBounds(start, caps, step, ts, i);
    }
  }

  /** The books of a round: what is reported moved comes out of the budget. */
  lemma RoundBudget(w: Load, p: Profile, ids: seq<int>, perSeatLb: real, bias: Bias, budgetLb: real, softMax: Load)
    requires NoDup(ids)
    ensures var s := Placed(w, p, ids, perSeatLb, bias, budgetLb, softMax);
            && Sum(s.w, ids) == Sum(w, ids) + s.moved
            && s.budget + s.moved == Max(0.0, RoundLb(budgetLb))
            && 0.0 <= s.moved && 0.0 <= s.budget
  {
    if !NothingToDo(ids, perSeatLb, budgetLb) {
      var start := Placement(w, Max(0.0, RoundLb(budgetLb)), 0.0);
      OrderedTargets(w, p, ids, bias);
      PlaceEachLaw(start, ShiftCaps(p, softMax, ids), RoundLb(perSeatLb), SortBy(RoundTargets(p, ids, bias), LighterFirst(w)), ids);
    }
  }

  /** A round adds exactly the pounds it reports, and no more than the budget. */
  lemma RoundAddsWhatItReports(w: Load, p: Profile, ids: seq<int>, perSeatLb: real, bias: Bias, budgetLb: real, softMax: Load)
    requires RoundReady(w, p, ids, softMax)
    ensures var s := Placed(w, p, ids, perSeatLb, bias, budgetLb, softMax);
            var v := AfterRound(w, p, ids, perSeatLb, bias, budgetLb, softMax);
            && Sum(v, ids) == Sum(w, ids) + s.moved
            && 0.0 <= s.moved <= Max(0.0, RoundLb(budgetLb))
  {
    RoundBudget(w, p, ids, perSeatLb, bias, budgetLb, softMax);
    if !NothingToDo(ids, perSeatLb, budgetLb) {
      PlacedFits(w, p, ids, perSeatLb, bias, budgetLb, softMax);
      StageBalances(Placed(w, p, ids, perSeatLb, bias, budgetLb, softMax).w, p, ids, softMax, ids);
    }
  }

  /** It reports at most one step per target: the step times the number of targets. */
  lemma RoundStepLimit(w: Load, p: Profile, ids: seq<int>, perSeatLb: real, bias: Bias, budgetLb: real, softMax: Load)
    returns (step: real, targets: nat, limit: real)
    requires NoDup(ids)
    ensures step == Max(0.0, RoundLb(perSeatLb)) && targets == |RoundTargets(p, ids, bias)|
    ensures limit == step * targets as real && Placed(w, p, ids, perSeatLb, bias, budgetLb, softMax).moved <= limit
  {
    step, targets := Max(0.0, RoundLb(perSeatLb)), |RoundTargets(p, ids, bias)|;
    limit := Steps(step, targets);
    RoundInSteps(w, p, ids, perSeatLb, bias, budgetLb, softMax);
    assert limit == step * targets as real by {
      StepsAre(step, targets);
    }
  }

  lemma RoundInSteps(w: Load, p: Profile, ids: seq<int>, perSeatLb: real, bias: Bias, budgetLb: real, softMax: Load)
    requires NoDup(ids)
    ensures Placed(w, p, ids, perSeatLb, bias, budgetLb, softMax).moved
         <= Steps(Max(0.0, RoundLb(perSeatLb)), |RoundTargets(p, ids, bias)|)
  {
    var step := Max(0.0, RoundLb(perSeatLb));
    if NothingToDo(ids, perSeatLb, budgetLb) {
      StepsNonNegative(step, |RoundTargets(p, ids, bias)|);
    } else {
      var start := Placement(w, Max(0.0, RoundLb(budgetLb)), 0.0);
      var ts := SortBy(RoundTargets(p, ids, bias), LighterFirst(w));
      OrderedTargets(w, p, ids, bias);
      PlaceEachLimit(start, ShiftCaps(p, softMax, ids), step, ts);
    }
  }

  lemma {:induction false} StepsNonNegative(perSeat: real, n: nat)
    requires perSeat >= 0.0
    ensures Steps(perSeat, n) >= 0.0
  {
    if n > 0 {
      StepsNonNegative(perSeat, n - 1);
    }
  }

  lemma RoundBounds(w: Load, p: Profile, ids: seq<int>, perSeatLb: real, bias: Bias, budgetLb: real, softMax: Load, i: int)
    requires RoundReady(w, p, ids, softMax)
    ensures var v := AfterRound(w, p, ids, perSeatLb, bias, budgetLb, softMax);
            && (i !in ids ==> At(v, i) == At(w, i))
            && (i in ids ==> 0.0 <= At(v, i) <= EffectiveCap(p, softMax, i) && Whole(At(v, i)))
  {
    var s := Placed(w, p, ids, perSeatLb, bias, budgetLb, softMax);
    if !NothingToDo(ids, perSeatLb, budgetLb) {
      var start := Placement(w, Max(0.0, RoundLb(budgetLb)), 0.0);
      OrderedTargets(w, p, ids, bias);
      PlacedFits(w, p, ids, perSeatLb, bias, budgetLb, softMax);
      PlaceEachBounds(start, ShiftCaps(p, softMax, ids), RoundLb(perSeatLb), SortBy(RoundTargets(p, ids, bias), LighterFirst(w)), i);
      StageBalanceBounds(s.w, p, ids, softMax, i);
      if i in ids {
        StageBalanceWhole(s.w, p, ids, softMax, i);
      }
    }
  }

  /** A round reports nothing exactly when there is nothing to place, no step, or no target
      with room. */
  lemma RoundStallsIff(w: Load, p: Profile, ids: seq<int>, perSeatLb: real, bias: Bias, budgetLb: real, softMax: Load)
    requires RoundReady(w, p, ids, softMax)
    ensures Placed(w, p, ids, perSeatLb, bias, budgetLb, softMax).moved == 0.0 <==>
            NothingToDo(ids, perSeatLb, budgetLb)
            || forall i <- RoundTargets(p, ids, bias) :: EffectiveCap(p, softMax, i) <= At(w, i)
  {
    if !NothingToDo(ids, perSeatLb, budgetLb) {
      var start := Placement(w, Max(0.0, RoundLb(budgetLb)), 0.0);
      var ts := SortBy(RoundTargets(p, ids, bias), LighterFirst(w));
      OrderedTargets(w, p, ids, bias);
      PlaceEachStalls(start, ShiftCaps(p, softMax, ids), RoundLb(perSeatLb), ts);
      forall i <- ts ensures At(ShiftCaps(p, softMax, ids), i) == EffectiveCap(p, softMax, i) {
        assert i in ids;
      }
    }
  }

  // ---- repeated rounds ----

  /** Equal rounds with the same step until one of them reports nothing. */
  ghost function Repeated(w: Load, p: Profile, ids: seq<int>, perSeatLb: real, budgetLb: real, softMax: Load): (Load, real)
    requires RoundReady(w, p, ids, softMax)
    decreases CeilNat(RoundLb(budgetLb))
  {
    var s := Placed(w, p, ids, perSeatLb, Equal, budgetLb, softMax);
    var v := AfterRound(w, p, ids, perSeatLb, Equal, budgetLb, softMax);
    if s.moved == 0.0 then (w, 0.0)
    else
      RoundProgress(w, p, ids, perSeatLb, budgetLb, softMax);
      var rest := Repeated(v, p, ids, perSeatLb, s.budget, softMax);
      (rest.0, s.moved + rest.1)
  }

  lemma RoundProgress(w: Load, p: Profile, ids: seq<int>, perSeatLb: real, budgetLb: real, softMax: Load)
    requires RoundReady(w, p, ids, softMax)
    requires Placed(w, p, ids, perSeatLb, Equal, budgetLb, softMax).moved != 0.0
    ensures var s := Placed(w, p, ids, perSeatLb, Equal, budgetLb, softMax);
            && RoundLb(s.budget) == s.budget && s.budget + s.moved == RoundLb(budgetLb) && 0.0 <= s.budget
            && CeilNat(RoundLb(s.budget)) < CeilNat(RoundLb(budgetLb))
    ensures RoundReady(AfterRound(w, p, ids, perSeatLb, Equal, budgetLb, softMax), p, ids, softMax)
  {
    var s := Placed(w, p, ids, perSeatLb, Equal, budgetLb, softMax);
    RoundBudget(w, p, ids, perSeatLb, Equal, budgetLb, softMax);
    PlacedFits(w, p, ids, perSeatLb, Equal, budgetLb, softMax);
    RoundWhole(budgetLb);
    RoundWhole(s.budget);
    BudgetDrops(s.budget, RoundLb(budgetLb));
    RoundKeepsReady(w, p, ids, perSeatLb, Equal, budgetLb, softMax);
  }

  lemma BudgetDrops(left: real, before: real)
    requires Whole(left) && Whole(before) && 0.0 <= left < before
    ensures CeilNat(left) < CeilNat(before)
  {
    WholeLess(left, before);
    CeilMonotone(left, before - 1.0);
  }

  lemma WholeLess(a: real, b: real)
    requires Whole(a) && Whole(b) && a < b
    ensures a <= b - 1.0
  {
    assert a.Floor < b.Floor;
  }

  lemma RoundKeepsReady(w: Load, p: Profile, ids: seq<int>, perSeatLb: real, bias: Bias, budgetLb: real, softMax: Load)
    requires RoundReady(w, p, ids, softMax)
    ensures RoundReady(AfterRound(w, p, ids, perSeatLb, bias, budgetLb, softMax), p, ids, softMax)
  {
    var v := AfterRound(w, p, ids, perSeatLb, bias, budgetLb, softMax);
    assert forall i <- ids :: 0.0 <= At(v, i) <= EffectiveCap(p, softMax, i) && Whole(At(v, i)) by {
      forall i <- ids ensures 0.0 <= At(v, i) <= EffectiveCap(p, softMax, i) && Whole(At(v, i)) {
        RoundBounds(w, p, ids, perSeatLb, bias, budgetLb, softMax, i);
      }
    }
    StaysReady(w, v, p, ids, softMax);
  }

  lemma StaysReady(w: Load, v: Load, p: Profile, ids: seq<int>, softMax: Load)
    requires RoundReady(w, p, ids, softMax)
    requires forall i <- ids :: 0.0 <= At(v, i) <= EffectiveCap(p, softMax, i) && Whole(At(v, i))
    ensures RoundReady(v, p, ids, softMax)
  {
  }

  /** Repeating equal rounds with a positive step ends with min(budget, room) placed. */
  lemma {:induction false} RepeatedRoundsFill(w: Load, p: Profile, ids: seq<int>, perSeatLb: real, budgetLb: real, softMax: Load)
    requires RoundReady(w, p, ids, softMax) && RoundLb(perSeatLb) > 0.0
    ensures var r := Repeated(w, p, ids, perSeatLb, budgetLb, softMax);
            && r.1 == Min(Max(0.0, RoundLb(budgetLb)), Room(w, Caps(p, softMax, ids), ids))
            && Sum(r.0, ids) == Sum(w, ids) + r.1
    decreases CeilNat(RoundLb(budgetLb))
  {
    var caps := Caps(p, softMax, ids);
    var s := Placed(w, p, ids, perSeatLb, Equal, budgetLb, softMax);
    var v := AfterRound(w, p, ids, perSeatLb, Equal, budgetLb, softMax);
    RoomSign(w, caps, ids);
    RoomIsSlack(w, caps, ids);
    if s.moved == 0.0 {
      StallMeansFull(w, p, ids, perSeatLb, budgetLb, softMax);
    } else {
      RoundProgress(w, p, ids, perSeatLb, budgetLb, softMax);
      RoundAddsWhatItReports(w, p, ids, perSeatLb, Equal, budgetLb, softMax);
      RoomIsSlack(v, caps, ids);
      RoomSign(v, caps, ids);
      RepeatedRoundsFill(v, p, ids, perSeatLb, s.budget, softMax);
    }
  }

  /** An unbiased round that moves nothing had nothing to place or no room. */
  lemma StallMeansFull(w: Load, p: Profile, ids: seq<int>, perSeatLb: real, budgetLb: real, softMax: Load)
    requires RoundReady(w, p, ids, softMax) && RoundLb(perSeatLb) > 0.0
    requires Placed(w, p, ids, perSeatLb, Equal, budgetLb, softMax).moved == 0.0
    ensures RoundLb(budgetLb) <= 0.0 || Room(w, Caps(p, softMax, ids), ids) == 0.0
  {
    var caps := Caps(p, softMax, ids);
    RoundStallsIff(w, p, ids, perSeatLb, Equal, budgetLb, softMax);
    if RoundLb(budgetLb) > 0.0 {
      forall i <- ids ensures At(caps, i) <= At(w, i) {
        OrderHas(p, ids, i);
      }
    }
    RoomSign(w, caps, ids);
  }

  // ---- the methods ----

  /** Grow a selection to whole rows. */
  method ExpandRows(selected0: set<int>, rows: seq<Row>) returns (selected: set<int>)
    ensures selected == Expand(selected0, rows)
  {
    selected := selected0;
    assert rows[0..] == rows;
    for k := 0 to |rows|
      invariant Expand(selected, rows[k..]) == Expand(selected0, rows)
    {
      assert rows[k..][0] == rows[k] && rows[k..][1..] == rows[k + 1..];
      if rows[k].0 in selected || rows[k].1 in selected {
        selected := selected + {rows[k].0, rows[k].1};
      }
    }
    assert rows[|rows|..] == [];
  }

  /** Forward or aft half of the stations, rows kept whole. */
  method LongitudinalHalfIndexes(p: Profile, ids: seq<int>, direction: Direction) returns (r: seq<int>)
    ensures r == HalfIndexes(p, ids, direction)
  {
    var order := ForwardFirst(p, ids);
    var rows := FindLateralStationGroups(p, ids);
    var selected := ExpandRows((set i | i in Half(order, direction)), rows);
    r := Only(order, selected);
  }

  /** One load round: up to a step on each target, lightest first. */
  method AllocateCargoRoundPerSeat(stations: Load, p: Profile, movable: seq<int>, perSeatLb: real, bias: Bias,
                                   cargoBudgetLb: real, softMax: Load)
    returns (next: Load, movedLb: real)
    ensures next == AfterRound(stations, p, movable, perSeatLb, bias, cargoBudgetLb, softMax)
    ensures movedLb == Placed(stations, p, movable, perSeatLb, bias, cargoBudgetLb, softMax).moved
  {
    var budget := Max(0.0, RoundLb(cargoBudgetLb));
    var perSeat := Max(0.0, RoundLb(perSeatLb));
    if budget <= 0.0 || perSeat <= 0.0 || movable == [] {
      return stations, 0.0;
    }
    var targets;
    match bias {
      case Equal => targets := ForwardFirst(p, movable);
      case Toward(direction) => targets := LongitudinalHalfIndexes(p, movable, direction);
    }
    var s := PlaceOnTargets(stations, ShiftCaps(p, softMax, movable), perSeat, budget, SortBy(targets, LighterFirst(stations)));
    next := EqualizeLateralStationPairs(s.w, p, movable, softMax);
    movedLb := s.moved;
  }

  method PlaceOnTargets(stations: Load, caps: Load, perSeat: real, budget: real, targets: seq<int>) returns (s: Placement)
    ensures s == PlaceEach(Placement(stations, budget, 0.0), caps, perSeat, targets)
  {
    s := Placement(stations, budget, 0.0);
    ghost var goal := PlaceEach(s, caps, perSeat, targets);
    assert targets[0..] == targets;
    for k := 0 to |targets|
      invariant PlaceEach(s, caps, perSeat, targets[k..]) == goal
    {
      if s.budget <= 0.0 {
        PlaceEachBroke(s, caps, perSeat, targets[k..]);
        return;
      }
      assert targets[k..][0] == targets[k] && targets[k..][1..] == targets[k + 1..];
      var room := Max(0.0, At(caps, targets[k]) - At(s.w, targets[k]));
      var take := Min(perSeat, Min(room, s.budget));
      if take <= 0.0 {
        continue;
      }
      s := Placement(s.w[targets[k] := At(s.w, targets[k]) + take], s.budget - take, s.moved + take);
    }
    assert targets[|targets|..] == [];
  }

  lemma {:induction false} PlaceEachBroke(s: Placement, cap: Load, perSeat: real, ids: seq<int>)
    requires s.budget <= 0.0
    ensures PlaceEach(s, cap, perSeat, ids) == s
    decreases ids
  {
    if ids != [] {
      PlaceEachBroke(s, cap, perSeat, ids[1..]);
    }
  }
}
