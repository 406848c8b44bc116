/** Splitting the block fuel over the tanks: `distributeFuelAcrossTanks`. */
module {:induction false} FuelSplit {
  import opened Options
  import opened LoadErrors
  import opened Weights

  datatype Unit = Gallons | Pounds | Liters | Kilograms

  /** A tank of the profile; a missing capacity counts as 0. */
  datatype Tank = Tank(id: string, capacity: Option<real>)

  type Quantities = map<string, real>

  function CapacityOf(t: Tank): real {
    match t.capacity case None => 0.0 case Some(c) => c
  }

  function Ids(tanks: seq<Tank>): seq<string> {
    seq(|tanks|, k requires 0 <= k < |tanks| => tanks[k].id)
  }

  function Capacities(tanks: seq<Tank>): Quantities {
    if tanks == [] then map[] else Capacities(tanks[1..])[tanks[0].id := CapacityOf(tanks[0])]
  }

  function Empty(tanks: seq<Tank>): Quantities {
    map i | i in Ids(tanks) :: 0.0
  }

  function Qty(q: Quantities, id: string): real {
    if id in q then q[id] else 0.0
  }

  function Total(q: Quantities, ids: seq<string>): real {
    if ids == [] then 0.0 else Qty(q, ids[0]) + Total(q, ids[1..])
  }

  /** Gallons and liters are kept in hundredths, pounds and kilograms in whole units. */
  predicate Hundredths(u: Unit) {
    u == Gallons || u == Liters
  }

  function Step(u: Unit): real {
    if Hundredths(u) then 0.01 else 1.0
  }

  function RoundFuel(x: real, u: Unit): real {
    if Hundredths(u) then (x * 100.0 + 0.5).Floor as real / 100.0
    else (x + 0.5).Floor as real
  }

  /** Left and right shares of a pair: half each, unless a half is more than a tank holds. */
  function Shares(take: real, leftCap: real, rightCap: real): (real, real) {
    var left := Max(take - rightCap, Min(leftCap, take / 2.0));
    (left, take - left)
  }

  datatype Fill = Fill(qty: Quantities, remaining: real, used: set<string>)

  type Pair = (string, string)

  function FillPair(f: Fill, cap: Quantities, u: Unit, pair: Pair): Fill {
    if pair.0 !in cap || pair.1 !in cap || cap[pair.0] + cap[pair.1] <= 0.0 then f
    else
      var take := Min(f.remaining, cap[pair.0] + cap[pair.1]);
      var shares := Shares(take, cap[pair.0], cap[pair.1]);
      var left, right := RoundFuel(shares.0, u), RoundFuel(shares.1, u);
      Fill(f.qty[pair.0 := left][pair.1 := right], f.remaining - (left + right), f.used + {pair.0, pair.1})
  }

  const SYMMETRIC_PAIRS: seq<Pair> :=
    [("LEFT_MAIN", "RIGHT_MAIN"), ("LEFT_AUX", "RIGHT_AUX"), ("LEFT_TIP", "RIGHT_TIP")]

  function FillPairs(f: Fill, cap: Quantities, u: Unit, pairs: seq<Pair>): Fill
    decreases pairs
  {
    if pairs == [] then f else FillPairs(FillPair(f, cap, u, pairs[0]), cap, u, pairs[1..])
  }

  function FillOne(f: Fill, t: Tank, u: Unit): Fill {
    var take := Min(f.remaining, CapacityOf(t));
    Fill(f.qty[t.id := RoundFuel(take, u)], f.remaining - take, f.used + {t.id})
  }

  /** Unpaired tanks in profile order, until no more than 0.01 is left. */
  function FillRest(f: Fill, tanks: seq<Tank>, u: Unit): Fill
    decreases tanks
  {
    if tanks == [] then f
    else if tanks[0].id in f.used then FillRest(f, tanks[1..], u)
    else
      var g := FillOne(f, tanks[0], u);
      if g.remaining <= 0.01 then g else FillRest(g, tanks[1..], u)
  }

  function Split(quantity: real, tanks: seq<Tank>, u: Unit): Fill {
    var f := FillPairs(Fill(Empty(tanks), quantity, {}), Capacities(tanks), u, SYMMETRIC_PAIRS);
    if f.remaining > 0.01 then FillRest(f, tanks, u) else f
  }

  // ---- rounding ----

  ghost predicate OnGrid(x: real, u: Unit) {
    if Hundredths(u) then Whole(x * 100.0) else Whole(x)
  }

  lemma RoundGrid(x: real, u: Unit)
    ensures x - Step(u) / 2.0 < RoundFuel(x, u) <= x + Step(u) / 2.0
    ensures OnGrid(RoundFuel(x, u), u)
    ensures OnGrid(x, u) ==> RoundFuel(x, u) == x
    ensures -Step(u) / 2.0 <= x < Step(u) / 2.0 ==> RoundFuel(x, u) == 0.0
  {
    if Hundredths(u) {
      RoundWhole(x * 100.0);
      if -0.005 <= x < 0.005 {
        FloorIs(x * 100.0 + 0.5, 0);
      }
    } else {
      RoundWhole(x);
      if -0.5 <= x < 0.5 {
        FloorIs(x + 0.5, 0);
      }
    }
  }

  /** Rounding keeps the order, so it cannot pass a rounded capacity. */
  lemma RoundInside(x: real, cap: real, u: Unit)
    requires -Step(u) / 2.0 <= x <= cap
    ensures 0.0 <= RoundFuel(x, u) <= RoundFuel(cap, u)
  {
    if Hundredths(u) {
      assert 0 <= (x * 100.0 + 0.5).Floor <= (cap * 100.0 + 0.5).Floor;
    } else {
      assert 0 <= (x + 0.5).Floor <= (cap + 0.5).Floor;
    }
  }

  lemma GridSum(x: real, y: real, u: Unit)
    requires OnGrid(x, u) && OnGrid(y, u)
    ensures OnGrid(x + y, u) && OnGrid(x - y, u)
  {
    if Hundredths(u) {
      WholeSum(x * 100.0, y * 100.0);
      WholeSum(0.0, y * 100.0) by {
        assert Whole(0.0);
      }
      WholeSum(x * 100.0, -(y * 100.0));
    } else {
      WholeSum(0.0, y) by {
        assert Whole(0.0);
      }
      WholeSum(x, y);
      WholeSum(x, -y);
    }
  }

  lemma GridGap(x: real, u: Unit)
    requires OnGrid(x, u) && x > 0.0
    ensures x >= Step(u)
  {
    if Hundredths(u) {
      assert (x * 100.0).Floor >= 1;
    } else {
      assert x.Floor >= 1;
    }
  }

  /** Within the capacities the shares are as even as the tanks allow. */
  predicate EvenShares(take: real, left: real, right: real, leftCap: real, rightCap: real) {
    && left + right == take && left <= leftCap && right <= rightCap
    && (left < right ==> left == leftCap) && (right < left ==> right == rightCap)
  }

  // ---- totals ----

  lemma {:induction false} TotalFrame(q: Quantities, r: Quantities, ids: seq<string>)
    requires forall i <- ids :: Qty(q, i) == Qty(r, i)
    ensures Total(q, ids) == Total(r, ids)
  {
    if ids != [] {
      TotalFrame(q, r, ids[1..]);
    }
  }

  lemma {:induction false} TotalUpdate(q: Quantities, i: string, x: real, ids: seq<string>)
    requires NoDup(ids) && i in ids
    ensures Total(q[i := x], ids) == Total(q, ids) - Qty(q, i) + x
  {
    if ids[0] == i {
      TotalFrame(q, q[i := x], ids[1..]);
    } else {
      TotalUpdate(q, i, x, ids[1..]);
    }
  }

  lemma {:induction false} TotalMonotone(q: Quantities, r: Quantities, ids: seq<string>)
    requires forall i <- ids :: Qty(q, i) <= Qty(r, i)
    ensures Total(q, ids) <= Total(r, ids)
    ensures Total(q, ids) == Total(r, ids) ==> forall i <- ids :: Qty(q, i) == Qty(r, i)
  {
    if ids != [] {
      TotalMonotone(q, r, ids[1..]);
      assert ids == [ids[0]] + ids[1..];
    }
  }

  // ---- from pounds to tanks ----

  const KG_TO_LB := 2.2046226218
  const LITERS_PER_GAL := 3.785411784

  function QtyFromLb(lb: real, u: Unit, lbPerGal: real): real
    requires lbPerGal > 0.0
  {
    match u
    case Gallons => lb / lbPerGal
    case Pounds => lb
    case Kilograms => lb / KG_TO_LB
    case Liters => lb / (lbPerGal / LITERS_PER_GAL)
  }

  function LbFromQty(qty: real, u: Unit, lbPerGal: real): real
    requires lbPerGal > 0.0
  {
    match u
    case Gallons => qty * lbPerGal
    case Pounds => qty
    case Kilograms => qty * KG_TO_LB
    case Liters => qty * (lbPerGal / LITERS_PER_GAL)
  }

  function CapacityTotal(tanks: seq<Tank>): real {
    if tanks == [] then 0.0 else CapacityOf(tanks[0]) + CapacityTotal(tanks[1..])
  }

  datatype FuelPlan = FuelPlan(tanks: Quantities, capacityTotal: real, clamped: bool, requestedLb: real, placedLb: real)

  /** The outcome of `distributeFuelAcrossTanks`. */
  function Distributed(blockFuelLb: real, tanks: seq<Tank>, u: Unit, lbPerGal: real, clamp: bool): Result<FuelPlan, LoadError>
    requires lbPerGal > 0.0
  {
    var capacity := CapacityTotal(tanks);
    var quantity := QtyFromLb(blockFuelLb, u, lbPerGal);
    if tanks == [] || capacity <= 0.0 then Err(NoTanks)
    else if quantity > capacity + 0.05 && !clamp then Err(FuelOverCapacity)
    else
      var clamped := quantity > capacity + 0.05;
      var f := Split(if clamped then capacity else quantity, tanks, u);
      if f.remaining > 0.01 then Err(FuelOverCapacity)
      else Ok(FuelPlan(f.qty, capacity, clamped, blockFuelLb, RoundLb(LbFromQty(Total(f.qty, Ids(tanks)), u, lbPerGal))))
  }

  /** Convert the block fuel to tank quantities: symmetric pairs first, then the other tanks in
      profile order. */
  method DistributeFuelAcrossTanks(blockFuelLb: real, tanks: seq<Tank>, u: Unit, lbPerGal: real, clamp: bool)
    returns (r: Result<FuelPlan, LoadError>)
    requires lbPerGal > 0.0
    ensures r == Distributed(blockFuelLb, tanks, u, lbPerGal, clamp)
  {
    if tanks == [] {
      return Err(NoTanks);
    }
    var capacityTotal := CapacityTotal(tanks);
    if capacityTotal <= 0.0 {
      return Err(NoTanks);
    }
    var remaining := QtyFromLb(blockFuelLb, u, lbPerGal);
    var clamped := false;
    if remaining > capacityTotal + 0.05 {
      if clamp {
        remaining := capacityTotal;
        clamped := true;
      } else {
        return Err(FuelOverCapacity);
      }
    }
    var f := FillTanks(remaining, tanks, u);
    if f.remaining > 0.01 {
      return Err(FuelOverCapacity);
    }
    var placedQty := Total(f.qty, Ids(tanks));
    r := Ok(FuelPlan(f.qty, capacityTotal, clamped, blockFuelLb, RoundLb(LbFromQty(placedQty, u, lbPerGal))));
  }

  /** The two filling loops. */
  method FillTanks(quantity: real, tanks: seq<Tank>, u: Unit) returns (f: Fill)
    ensures f == Split(quantity, tanks, u)
  {
    f := FillSymmetric(Fill(Empty(tanks), quantity, {}), Capacities(tanks), u, SYMMETRIC_PAIRS);
    if f.remaining > 0.01 {
      var result, remaining, used := FillUnpaired(f.qty, f.remaining, f.used, tanks, u);
      f := Fill(result, remaining, used);
    }
  }

  /** The shares add up to what is taken, fit the tanks, and differ only where the emptier tank is full. */
  method SharePair(take: real, leftCap: real, rightCap: real) returns (left: real, right: real)
    requires take <= leftCap + rightCap
    ensures EvenShares(take, left, right, leftCap, rightCap)
    ensures (left, right) == Shares(take, leftCap, rightCap)
  {
    left, right := take / 2.0, take / 2.0;
    if left > leftCap {
      right := right + (left - leftCap);
      left := leftCap;
    }
    if right > rightCap {
      left := left + (right - rightCap);
      right := rightCap;
      left := Min(left, leftCap);
    }
  }

  /** There is one way only to share evenly. */
  lemma EvenSharesAreUnique(take: real, left: real, right: real, leftCap: real, rightCap: real)
    requires take <= leftCap + rightCap
    ensures EvenShares(take, left, right, leftCap, rightCap) <==> (left, right) == Shares(take, leftCap, rightCap)
  {
  }

  method FillSymmetric(start: Fill, capacityById: Quantities, u: Unit, pairs: seq<Pair>) returns (f: Fill)
    ensures f == FillPairs(start, capacityById, u, pairs)
  {
    f := start;
    assert pairs[0..] == pairs;
    for k := 0 to |pairs|
      invariant FillPairs(f, capacityById, u, pairs[k..]) == FillPairs(start, capacityById, u, pairs)
    {
      var (leftId, rightId) := pairs[k];
      assert pairs[k..][0] == pairs[k] && pairs[k..][1..] == pairs[k + 1..];
      if leftId !in capacityById || rightId !in capacityById {
        continue;
      }
      var leftCap, rightCap := capacityById[leftId], capacityById[rightId];
      var pairCap := leftCap + rightCap;
      if pairCap <= 0.0 {
        continue;
      }
      var left, right := SharePair(Min(f.remaining, pairCap), leftCap, rightCap);
      left, right := RoundFuel(left, u), RoundFuel(right, u);
      f := Fill(f.qty[leftId := left][rightId := right], f.remaining - (left + right), f.used + {leftId, rightId});
    }
    assert pairs[|pairs|..] == [];
  }

  method FillUnpaired(result0: Quantities, remaining0: real, used0: set<string>, tanks: seq<Tank>, u: Unit)
    returns (result: Quantities, remaining: real, used: set<string>)
    ensures Fill(result, remaining, used) == FillRest(Fill(result0, remaining0, used0), tanks, u)
  {
    result, remaining, used := result0, remaining0, used0;
    assert tanks[0..] == tanks;
    for k := 0 to |tanks|
      invariant FillRest(Fill(result, remaining, used), tanks[k..], u) == FillRest(Fill(result0, remaining0, used0), tanks, u)
    {
      var t := tanks[k];
      assert tanks[k..][1..] == tanks[k + 1..];
      if t.id in used {
        continue;
      }
      var take := Min(remaining, CapacityOf(t));
      result := result[t.id := RoundFuel(take, u)];
      remaining := remaining - take;
      used := used + {t.id};
      if remaining <= 0.01 {
        return;
      }
    }
    assert tanks[|tanks|..] == [];
  }
}
