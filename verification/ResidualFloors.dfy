/** Unusable residual fuel: `redistributeAroundResidualFloors` accepts the floors the simulator
    insists on and takes the same quantity out of the tanks that carry planned fuel. */
module {:induction false} ResidualFloors {
  import opened Weights

  /** Tank quantities in insertion order of their keys. */
  datatype Record = Record(keys: seq<string>, qty: map<string, real>)

  ghost predicate Valid(r: Record) {
    NoDup(r.keys) && forall i :: i in r.keys <==> i in r.qty
  }

  function Get(r: Record, id: string): real {
    if id in r.qty then r.qty[id] else 0.0
  }

  function Put(r: Record, id: string, x: real): Record {
    Record(if id in r.qty then r.keys else r.keys + [id], r.qty[id := x])
  }

  function SumOver(r: Record, ids: seq<string>): real {
    if ids == [] then 0.0 else Get(r, ids[0]) + SumOver(r, ids[1..])
  }

  function SumTankQty(r: Record): real {
    SumOver(r, r.keys)
  }

  function Round100(x: real): real {
    (x * 100.0 + 0.5).Floor as real / 100.0
  }

  // ---- absorbing the floors ----

  datatype Absorption = Absorption(tanks: Record, added: real)

  predicate IsFloor(want: real, liveQty: real, maxFloor: real) {
    liveQty > want + 0.05 && want <= 0.5 && 0.5 < liveQty <= maxFloor
  }

  function AbsorbOne(a: Absorption, id: string, liveQty: real, maxFloor: real): Absorption {
    var want := Get(a.tanks, id);
    if IsFloor(want, liveQty, maxFloor) then Absorption(Put(a.tanks, id, liveQty), a.added + (liveQty - want)) else a
  }

  function Absorb(a: Absorption, live: Record, ids: seq<string>, maxFloor: real): Absorption
    decreases ids
  {
    if ids == [] then a else Absorb(AbsorbOne(a, ids[0], Get(live, ids[0]), maxFloor), live, ids[1..], maxFloor)
  }

  // ---- draining the same quantity elsewhere ----

  /** `writes` counts the rounded stores; each one may be off by half a hundredth. */
  datatype Drain = Drain(tanks: Record, excess: real, reduced: real, writes: nat)

  predicate CanDrain(planned: Record, id: string) {
    Get(planned, id) > 0.5
  }

  /** The three letters at `k` spell AUX or TIP, in any case. */
  predicate StemAt(id: string, k: nat)
    requires k + 2 < |id|
  {
    || (id[k] in "aA" && id[k + 1] in "uU" && id[k + 2] in "xX")
    || (id[k] in "tT" && id[k + 1] in "iI" && id[k + 2] in "pP")
  }

  /** AUX and TIP tanks, by name. */
  predicate Outer(id: string) {
    exists k | 0 <= k < |id| - 2 :: StemAt(id, k)
  }

  /** New left and right quantities when `take` is drained from a pair: half from each side that
      may be drained, then what is missing from whichever side still has it. */
  function PairLevels(left: real, right: real, take: real, canLeft: bool, canRight: bool): (real, real) {
    var l := if canLeft then Max(0.0, left - take / 2.0) else left;
    var r := if canRight then Max(0.0, right - take / 2.0) else right;
    var missing := take - (left - l + (right - r));
    if missing > 0.01 && canLeft && l >= missing then (l - missing, r)
    else if missing > 0.01 && canRight && r >= missing then (l, r - missing)
    else (l, r)
  }

  predicate SkipsPair(d: Drain, planned: Record, pair: (string, string)) {
    || d.excess <= 0.05
    || (!CanDrain(planned, pair.0) && !CanDrain(planned, pair.1))
    || (Get(d.tanks, pair.0) <= 0.0 && Get(d.tanks, pair.1) <= 0.0 && pair.0 !in d.tanks.qty && pair.1 !in d.tanks.qty)
    || Drainable(d, planned, pair) <= 0.05
  }

  function Drainable(d: Drain, planned: Record, pair: (string, string)): real {
    (if CanDrain(planned, pair.0) then Get(d.tanks, pair.0) else 0.0)
    + (if CanDrain(planned, pair.1) then Get(d.tanks, pair.1) else 0.0)
  }

  function DrainPair(d: Drain, planned: Record, pair: (string, string)): Drain {
    if SkipsPair(d, planned, pair) then d
    else
      var left, right := Get(d.tanks, pair.0), Get(d.tanks, pair.1);
      var take := Min(d.excess, Drainable(d, planned, pair));
      var levels := PairLevels(left, right, take, CanDrain(planned, pair.0), CanDrain(planned, pair.1));
      var removed := left - levels.0 + (right - levels.1);
      Drain(Put(Put(d.tanks, pair.0, Round100(levels.0)), pair.1, Round100(levels.1)),
            d.excess - removed, d.reduced + removed, d.writes + 2)
  }

  const DRAIN_PAIRS: seq<(string, string)> := [("LEFT_MAIN", "RIGHT_MAIN"), ("CENTER", "CENTER2")]

  function DrainPairs(d: Drain, planned: Record, pairs: seq<(string, string)>): Drain
    decreases pairs
  {
    if pairs == [] then d else DrainPairs(DrainPair(d, planned, pairs[0]), planned, pairs[1..])
  }

  predicate SkipsTank(d: Drain, planned: Record, id: string) {
    d.excess <= 0.05 || !CanDrain(planned, id) || Outer(id) || Get(d.tanks, id) <= 0.05
  }

  function DrainTank(d: Drain, planned: Record, id: string): Drain {
    if SkipsTank(d, planned, id) then d
    else
      var take := Min(d.excess, Get(d.tanks, id));
      Drain(Put(d.tanks, id, Round100(Get(d.tanks, id) - take)), d.excess - take, d.reduced + take, d.writes + 1)
  }

  function DrainTanks(d: Drain, planned: Record, ids: seq<string>): Drain
    decreases ids
  {
    if ids == [] then d else DrainTanks(DrainTank(d, planned, ids[0]), planned, ids[1..])
  }

  datatype Outcome = Outcome(tanks: Record, added: real, reduced: real)

  function AbsorbAll(planned: Record, live: Record, maxFloor: real): Absorption {
    Absorb(Absorption(planned, 0.0), live, live.keys, maxFloor)
  }

  function DrainAll(planned: Record, absorbed: Absorption): Drain {
    var start := Drain(absorbed.tanks, SumTankQty(absorbed.tanks) - SumTankQty(planned), 0.0, 0);
    if start.excess <= 0.05 then start
    else DrainFrom(planned, start, DRAIN_PAIRS)
  }

  /** The pairs first, then every tank of the record. */
  function DrainFrom(planned: Record, start: Drain, pairs: seq<(string, string)>): Drain {
    var d := DrainPairs(start, planned, pairs);
    DrainTanks(d, planned, d.tanks.keys)
  }

  /** The outcome of `redistributeAroundResidualFloors`. */
  function Redistributed(planned: Record, live: Record, maxFloor: real): Outcome {
    var absorbed := AbsorbAll(planned, live, maxFloor);
    if absorbed.added <= 0.05 then Outcome(planned, 0.0, 0.0)
    else
      var d := DrainAll(planned, absorbed);
      Outcome(d.tanks, absorbed.added, d.reduced)
  }

  // ---- totals ----

  lemma {:induction false} SumOverFrame(r: Record, t: Record, ids: seq<string>)
    requires forall i <- ids :: Get(r, i) == Get(t, i)
    ensures SumOver(r, ids) == SumOver(t, ids)
  {
    if ids != [] {
      SumOverFrame(r, t, ids[1..]);
    }
  }

  lemma {:induction false} SumOverAppend(r: Record, ids: seq<string>, id: string)
    ensures SumOver(r, ids + [id]) == SumOver(r, ids) + Get(r, id)
  {
    if ids == [] {
      assert [] + [id] == [id];
    } else {
      assert (ids + [id])[1..] == ids[1..] + [id];
      SumOverAppend(r, ids[1..], id);
    }
  }

  lemma {:induction false} SumOverUpdate(r: Record, t: Record, id: string, ids: seq<string>)
    requires NoDup(ids) && id in ids
    requires forall i <- ids :: i != id ==> Get(r, i) == Get(t, i)
    ensures SumOver(t, ids) == SumOver(r, ids) - Get(r, id) + Get(t, id)
  {
    if ids[0] == id {
      SumOverFrame(r, t, ids[1..]);
    } else {
      SumOverUpdate(r, t, id, ids[1..]);
    }
  }

  /** Storing one quantity changes the sum by exactly the difference, new key or not. */
  lemma PutSum(r: Record, id: string, x: real)
    requires Valid(r)
    ensures Valid(Put(r, id, x))
    ensures SumTankQty(Put(r, id, x)) == SumTankQty(r) - Get(r, id) + x
  {
    var t := Put(r, id, x);
    if id in r.qty {
      SumOverUpdate(r, t, id, r.keys);
    } else {
      SumOverFrame(r, t, r.keys);
      SumOverAppend(t, r.keys, id);
    }
  }

  ghost predicate NonNegative(r: Record) {
    forall i :: Get(r, i) >= 0.0
  }

  lemma PutNonNegative(r: Record, id: string, x: real)
    requires NonNegative(r) && x >= 0.0
    ensures NonNegative(Put(r, id, x))
  {
    forall i ensures Get(Put(r, id, x), i) >= 0.0 {
      assert Get(r, i) >= 0.0;
    }
  }

  lemma RoundsClose(x: real)
    ensures x - 0.005 <= Round100(x) <= x + 0.005
    ensures x >= 0.0 ==> Round100(x) >= 0.0
    ensures x == 0.0 ==> Round100(x) == 0.0
  {
    if x == 0.0 {
      FloorIs(0.5, 0);
    }
  }

  // ---- absorption ----

  lemma {:induction false} AbsorbSum(a: Absorption, live: Record, ids: seq<string>, maxFloor: real)
    requires Valid(a.tanks) && NonNegative(a.tanks)
    ensures var b := Absorb(a, live, ids, maxFloor);
            && Valid(b.tanks) && NonNegative(b.tanks)
            && SumTankQty(b.tanks) - b.added == SumTankQty(a.tanks) - a.added
            && b.added >= a.added
    decreases ids
  {
    if ids != [] {
      if IsFloor(Get(a.tanks, ids[0]), Get(live, ids[0]), maxFloor) {
        PutSum(a.tanks, ids[0], Get(live, ids[0]));
        PutNonNegative(a.tanks, ids[0], Get(live, ids[0]));
      }
      AbsorbSum(AbsorbOne(a, ids[0], Get(live, ids[0]), maxFloor), live, ids[1..], maxFloor);
    }
  }

  /** A tank is raised to its floor exactly when the live quantity is an unusable floor over an
      (almost) empty plan; every other tank keeps its plan. */
  lemma {:induction false} AbsorbAt(a: Absorption, live: Record, ids: seq<string>, maxFloor: real, id: string)
    requires NoDup(ids)
    ensures Get(Absorb(a, live, ids, maxFloor).tanks, id)
         == if id in ids && IsFloor(Get(a.tanks, id), Get(live, id), maxFloor) then Get(live, id) else Get(a.tanks, id)
    ensures id in a.tanks.qty ==> id in Absorb(a, live, ids, maxFloor).tanks.qty
    decreases ids
  {
    if ids != [] {
      AbsorbAt(AbsorbOne(a, ids[0], Get(live, ids[0]), maxFloor), live, ids[1..], maxFloor, id);
      assert ids == [ids[0]] + ids[1..];
    }
  }

  // ---- draining ----

  /** Invariant of the draining: the sum is the planned total plus what is still in excess, up
      to the rounding of the stores, and nothing is created or driven below zero. */
  ghost predicate Accounts(d: Drain, planned: Record, excess: real) {
    && Valid(d.tanks) && NonNegative(d.tanks)
    && d.excess >= 0.0 && d.reduced >= 0.0 && d.excess + d.reduced == excess
    && -0.005 * d.writes as real
         <= SumTankQty(d.tanks) - SumTankQty(planned) - d.excess
         <= 0.005 * d.writes as real
  }

  lemma PairLevelsFit(left: real, right: real, take: real, canLeft: bool, canRight: bool)
    requires left >= 0.0 && right >= 0.0 && take > 0.0
    requires take <= (if canLeft then left else 0.0) + (if canRight then right else 0.0)
    ensures var levels := PairLevels(left, right, take, canLeft, canRight);
            && 0.0 <= levels.0 <= left && 0.0 <= levels.1 <= right
            && take - 0.01 <= left - levels.0 + (right - levels.1) <= take
            && (!canLeft ==> levels.0 == left) && (!canRight ==> levels.1 == right)
            && (canLeft && canRight && left == right ==> levels.0 == levels.1)
  {
  }

  lemma DrainPairAccounts(d: Drain, planned: Record, pair: (string, string), excess: real)
    requires Accounts(d, planned, excess) && pair.0 != pair.1
    ensures Accounts(DrainPair(d, planned, pair), planned, excess)
  {
    if !SkipsPair(d, planned, pair) {
      var left, right := Get(d.tanks, pair.0), Get(d.tanks, pair.1);
      var take := Min(d.excess, Drainable(d, planned, pair));
      var levels := PairLevels(left, right, take, CanDrain(planned, pair.0), CanDrain(planned, pair.1));
      PairLevelsFit(left, right, take, CanDrain(planned, pair.0), CanDrain(planned, pair.1));
      RoundsClose(levels.0);
      RoundsClose(levels.1);
      var t := Put(d.tanks, pair.0, Round100(levels.0));
      PutSum(d.tanks, pair.0, Round100(levels.0));
      PutSum(t, pair.1, Round100(levels.1));
      PutNonNegative(d.tanks, pair.0, Round100(levels.0));
      PutNonNegative(t, pair.1, Round100(levels.1));
    }
  }

  lemma {:induction false} DrainPairsAccounts(d: Drain, planned: Record, pairs: seq<(string, string)>, excess: real)
    requires Accounts(d, planned, excess) && forall p <- pairs :: p.0 != p.1
    ensures Accounts(DrainPairs(d, planned, pairs), planned, excess)
    decreases pairs
  {
    if pairs != [] {
      assert pairs[0] in pairs;
      DrainPairAccounts(d, planned, pairs[0], excess);
      DrainPairsAccounts(DrainPair(d, planned, pairs[0]), planned, pairs[1..], excess);
    }
  }

  lemma DrainTankAccounts(d: Drain, planned: Record, id: string, excess: real)
    requires Accounts(d, planned, excess)
    ensures Accounts(DrainTank(d, planned, id), planned, excess)
  {
    if !SkipsTank(d, planned, id) {
      var take := Min(d.excess, Get(d.tanks, id));
      RoundsClose(Get(d.tanks, id) - take);
      PutSum(d.tanks, id, Round100(Get(d.tanks, id) - take));
      PutNonNegative(d.tanks, id, Round100(Get(d.tanks, id) - take));
    }
  }

  lemma {:induction false} DrainTanksAccounts(d: Drain, planned: Record, ids: seq<string>, excess: real)
    requires Accounts(d, planned, excess)
    ensures Accounts(DrainTanks(d, planned, ids), planned, excess)
    decreases ids
  {
    if ids != [] {
      DrainTankAccounts(d, planned, ids[0], excess);
      DrainTanksAccounts(DrainTank(d, planned, ids[0]), planned, ids[1..], excess);
    }
  }

  /** If excess is left after the last loop, the tanks it went over have nothing more to give. */
  lemma {:induction false} DrainTanksEmpties(d: Drain, planned: Record, ids: seq<string>, id: string)
    requires id in ids && CanDrain(planned, id) && !Outer(id)
    requires DrainTanks(d, planned, ids).excess > 0.05
    ensures Get(DrainTanks(d, planned, ids).tanks, id) <= 0.05
    decreases ids
  {
    var e := DrainTank(d, planned, ids[0]);
    DrainTanksShrinks(e, planned, ids[1..]);
    if ids[0] == id {
      RoundsClose(0.0);
      DrainTanksStays(e, planned, ids[1..], id);
    } else {
      assert ids == [ids[0]] + ids[1..];
      DrainTanksEmpties(e, planned, ids[1..], id);
    }
  }

  lemma {:induction false} DrainTanksShrinks(d: Drain, planned: Record, ids: seq<string>)
    ensures DrainTanks(d, planned, ids).excess <= d.excess
    decreases ids
  {
    if ids != [] {
      DrainTanksShrinks(DrainTank(d, planned, ids[0]), planned, ids[1..]);
    }
  }

  /** A tank with no more than 0.05 is not touched again. */
  lemma {:induction false} DrainTanksStays(d: Drain, planned: Record, ids: seq<string>, id: string)
    requires Get(d.tanks, id) <= 0.05 || !CanDrain(planned, id) || Outer(id)
    ensures Get(DrainTanks(d, planned, ids).tanks, id) == Get(d.tanks, id)
    decreases ids
  {
    if ids != [] {
      DrainTanksStays(DrainTank(d, planned, ids[0]), planned, ids[1..], id);
    }
  }

  lemma {:induction false} DrainPairsKeys(d: Drain, planned: Record, pairs: seq<(string, string)>, id: string)
    ensures id in d.tanks.qty ==> id in DrainPairs(d, planned, pairs).tanks.qty
    ensures DrainPairs(d, planned, pairs).writes <= d.writes + 2 * |pairs|
    decreases pairs
  {
    if pairs != [] {
      DrainPairsKeys(DrainPair(d, planned, pairs[0]), planned, pairs[1..], id);
    }
  }

  lemma {:induction false} DrainTanksKeys(d: Drain, planned: Record, ids: seq<string>)
    ensures DrainTanks(d, planned, ids).tanks.keys == d.tanks.keys
    ensures DrainTanks(d, planned, ids).writes <= d.writes + |ids|
    decreases ids
  {
    if ids != [] {
      DrainTanksKeys(DrainTank(d, planned, ids[0]), planned, ids[1..]);
    }
  }

  ghost predicate CloseTo(a: real, b: real, slack: real) {
    b - slack <= a <= b + slack
  }

  /** Quantities that the drain has stored, each rounded to hundredths. */
  function Writes(planned: Record, live: Record, maxFloor: real): nat {
    var a := AbsorbAll(planned, live, maxFloor);
    if a.added <= 0.05 then 0 else DrainAll(planned, a).writes
  }

  lemma TwoDrainPairs()
    ensures |DRAIN_PAIRS| == 2 && forall p <- DRAIN_PAIRS :: p.0 != p.1
  {
    assert "LEFT_MAIN"[0] == 'L' && "RIGHT_MAIN"[0] == 'R' && |"CENTER"| != |"CENTER2"|;
  }

  /** The books of the whole drain, and how often it can have rounded. */
  lemma DrainFromAccounts(planned: Record, start: Drain, pairs: seq<(string, string)>, excess: real)
    requires Accounts(start, planned, excess) && forall p <- pairs :: p.0 != p.1
    ensures var e := DrainFrom(planned, start, pairs);
            Accounts(e, planned, excess) && e.writes <= start.writes + 2 * |pairs| + |e.tanks.keys|
  {
    var d := DrainPairs(start, planned, pairs);
    DrainPairsAccounts(start, planned, pairs, excess);
    DrainTanksAccounts(d, planned, d.tanks.keys, excess);
    DrainPairsKeys(start, planned, pairs, "");
    DrainTanksKeys(d, planned, d.tanks.keys);
  }

  lemma DrainStart(planned: Record, a: Absorption) returns (start: Drain)
    requires Valid(a.tanks) && NonNegative(a.tanks) && SumTankQty(a.tanks) - SumTankQty(planned) == a.added > 0.05
    ensures start.tanks == a.tanks && start.writes == 0 && Accounts(start, planned, a.added)
    ensures DrainAll(planned, a) == DrainFrom(planned, start, DRAIN_PAIRS)
  {
    start := Drain(a.tanks, SumTankQty(a.tanks) - SumTankQty(planned), 0.0, 0);
  }

  lemma DrainAllAccounts(planned: Record, a: Absorption)
    requires Valid(a.tanks) && NonNegative(a.tanks) && SumTankQty(a.tanks) - SumTankQty(planned) == a.added > 0.05
    ensures var e := DrainAll(planned, a);
            Accounts(e, planned, a.added) && e.writes <= 4 + |e.tanks.keys|
  {
    var start := DrainStart(planned, a);
    TwoDrainPairs();
    DrainFromAccounts(planned, start, DRAIN_PAIRS, a.added);
  }

  lemma DrainFromEmpties(planned: Record, start: Drain, pairs: seq<(string, string)>, excess: real, id: string)
    requires Accounts(start, planned, excess) && forall p <- pairs :: p.0 != p.1
    requires CanDrain(planned, id) && !Outer(id) && id in start.tanks.qty && DrainFrom(planned, start, pairs).excess > 0.05
    ensures Get(DrainFrom(planned, start, pairs).tanks, id) <= 0.05
  {
    var d := DrainPairs(start, planned, pairs);
    assert id in d.tanks.keys by {
      DrainPairsAccounts(start, planned, pairs, excess);
      DrainPairsKeys(start, planned, pairs, id);
    }
    DrainTanksEmpties(d, planned, d.tanks.keys, id);
  }

  lemma DrainAllEmpties(planned: Record, a: Absorption, id: string)
    requires Valid(a.tanks) && NonNegative(a.tanks) && SumTankQty(a.tanks) - SumTankQty(planned) == a.added > 0.05
    requires CanDrain(planned, id) && !Outer(id) && id in a.tanks.qty && DrainAll(planned, a).excess > 0.05
    ensures Get(DrainAll(planned, a).tanks, id) <= 0.05
  {
    var start := DrainStart(planned, a);
    TwoDrainPairs();
    DrainFromEmpties(planned, start, DRAIN_PAIRS, a.added, id);
  }

  /** The books are right: the total changes by what is reported as added less what is reported as reduced,
      to half a hundredth per stored quantity. And it is kept: it ends within 0.05 and that rounding of the
      planned one, or else every inner tank that carried planned fuel has been drained. No tank goes below
      zero and no more is taken out than the floors added. */
  lemma RedistributeBalances(planned: Record, live: Record, maxFloor: real)
    requires Valid(planned) && NonNegative(planned) && Valid(live)
    ensures var r := Redistributed(planned, live, maxFloor);
            && NonNegative(r.tanks)
            && 0.0 <= r.reduced <= r.added && Writes(planned, live, maxFloor) <= 4 + |r.tanks.keys|
            && CloseTo(SumTankQty(r.tanks), SumTankQty(planned) + r.added - r.reduced, 0.005 * Writes(planned, live, maxFloor) as real)
            && (CloseTo(SumTankQty(r.tanks), SumTankQty(planned), 0.05 + 0.005 * Writes(planned, live, maxFloor) as real)
                || forall id :: Get(planned, id) > 0.5 && !Outer(id) ==> Get(r.tanks, id) <= 0.05)
  {
    var a := AbsorbAll(planned, live, maxFloor);
    AbsorbSum(Absorption(planned, 0.0), live, live.keys, maxFloor);
    if a.added > 0.05 {
      DrainAllAccounts(planned, a);
      if DrainAll(planned, a).excess > 0.05 {
        forall id | CanDrain(planned, id) && !Outer(id) ensures Get(DrainAll(planned, a).tanks, id) <= 0.05 {
          AbsorbAt(Absorption(planned, 0.0), live, live.keys, maxFloor, id);
          DrainAllEmpties(planned, a, id);
        }
      }
    }
  }

  lemma RoundTwice(x: real)
    ensures Round100(Round100(x)) == Round100(x)
  {
    var n := (x * 100.0 + 0.5).Floor;
    assert Round100(x) * 100.0 == n as real;
    FloorIs(n as real + 0.5, n);
  }

  lemma DrainPairSpares(d: Drain, planned: Record, pair: (string, string), id: string)
    requires !CanDrain(planned, id) && pair.0 != pair.1
    ensures var q := Get(DrainPair(d, planned, pair).tanks, id);
            q == Get(d.tanks, id) || q == Round100(Get(d.tanks, id))
  {
  }

  lemma {:induction false} DrainPairsSpare(d: Drain, planned: Record, pairs: seq<(string, string)>, id: string, x: real)
    requires !CanDrain(planned, id) && forall p <- pairs :: p.0 != p.1
    requires Get(d.tanks, id) == x || Get(d.tanks, id) == Round100(x)
    ensures var q := Get(DrainPairs(d, planned, pairs).tanks, id);
            q == x || q == Round100(x)
    decreases pairs
  {
    if pairs != [] {
      assert pairs[0] in pairs;
      DrainPairSpares(d, planned, pairs[0], id);
      RoundTwice(x);
      DrainPairsSpare(DrainPair(d, planned, pairs[0]), planned, pairs[1..], id, x);
    }
  }

  /** What is absorbed at one tank counts. */
  lemma {:induction false} AbsorbAdds(a: Absorption, live: Record, ids: seq<string>, maxFloor: real, id: string)
    requires NoDup(ids)
    ensures Absorb(a, live, ids, maxFloor).added >= a.added
    ensures id in ids && IsFloor(Get(a.tanks, id), Get(live, id), maxFloor) ==>
              Absorb(a, live, ids, maxFloor).added > a.added + 0.05
    decreases ids
  {
    if ids != [] {
      assert ids == [ids[0]] + ids[1..];
      AbsorbAdds(AbsorbOne(a, ids[0], Get(live, ids[0]), maxFloor), live, ids[1..], maxFloor, id);
    }
  }

  /** An absorbed floor is still there at the end, up to rounding to hundredths. */
  lemma FloorsStay(planned: Record, live: Record, maxFloor: real, id: string)
    requires Valid(live) && id in live.keys && IsFloor(Get(planned, id), Get(live, id), maxFloor)
    ensures CloseTo(Get(Redistributed(planned, live, maxFloor).tanks, id), Get(live, id), 0.005)
  {
    var a := AbsorbAll(planned, live, maxFloor);
    AbsorbAdds(Absorption(planned, 0.0), live, live.keys, maxFloor, id);
    AbsorbAt(Absorption(planned, 0.0), live, live.keys, maxFloor, id);
    RoundsClose(Get(live, id));
    DrainAllSpares(planned, a, id);
  }

  /** A tank with no more than 0.5 planned is never drained: it ends at its plan or its floor, up to rounding. */
  lemma SmallPlansStay(planned: Record, live: Record, maxFloor: real, id: string)
    requires Valid(live) && Get(planned, id) <= 0.5
    ensures var q := Get(Redistributed(planned, live, maxFloor).tanks, id);
            var floor := id in live.keys && Get(live, id) > Get(planned, id) + 0.05 && 0.5 < Get(live, id) <= maxFloor;
            CloseTo(q, Get(planned, id), 0.005) || (floor && CloseTo(q, Get(live, id), 0.005))
  {
    var a := AbsorbAll(planned, live, maxFloor);
    AbsorbAt(Absorption(planned, 0.0), live, live.keys, maxFloor, id);
    RoundsClose(Get(a.tanks, id));
    DrainAllSpares(planned, a, id);
  }

  lemma DrainAllSpares(planned: Record, a: Absorption, id: string)
    requires !CanDrain(planned, id)
    ensures var q := Get(DrainAll(planned, a).tanks, id);
            q == Get(a.tanks, id) || q == Round100(Get(a.tanks, id))
  {
    var start := DrainBegins(planned, a);
    if DrainAll(planned, a) != start {
      TwoDrainPairs();
      DrainFromSpares(planned, start, DRAIN_PAIRS, id);
    }
  }

  lemma DrainBegins(planned: Record, a: Absorption) returns (start: Drain)
    ensures start.tanks == a.tanks
    ensures DrainAll(planned, a) == start || DrainAll(planned, a) == DrainFrom(planned, start, DRAIN_PAIRS)
  {
    start := Drain(a.tanks, SumTankQty(a.tanks) - SumTankQty(planned), 0.0, 0);
  }

  lemma DrainFromSpares(planned: Record, start: Drain, pairs: seq<(string, string)>, id: string)
    requires !CanDrain(planned, id) && forall p <- pairs :: p.0 != p.1
    ensures var q := Get(DrainFrom(planned, start, pairs).tanks, id);
            q == Get(start.tanks, id) || q == Round100(Get(start.tanks, id))
  {
    var d := DrainPairs(start, planned, pairs);
    DrainPairsSpare(start, planned, pairs, id, Get(start.tanks, id));
    DrainTanksStays(d, planned, d.tanks.keys, id);
  }

  lemma {:induction false} DrainPairsElsewhere(d: Drain, planned: Record, pairs: seq<(string, string)>, id: string)
    requires forall p <- pairs :: p.0 != id && p.1 != id
    ensures Get(DrainPairs(d, planned, pairs).tanks, id) == Get(d.tanks, id)
    decreases pairs
  {
    if pairs != [] {
      assert pairs[0] in pairs;
      DrainPairsElsewhere(DrainPair(d, planned, pairs[0]), planned, pairs[1..], id);
    }
  }

  /** The tanks of the drained pairs are not wing-tip or auxiliary tanks. */
  lemma MainsAreInner(id: string)
    requires Outer(id)
    ensures exists c <- id :: c in "xXpP"
  {
    var k :| 0 <= k < |id| - 2 && StemAt(id, k);
    assert id[k + 2] in id;
  }

  lemma PairsAreInner(id: string)
    requires Outer(id)
    ensures forall p <- DRAIN_PAIRS :: p.0 != id && p.1 != id
  {
    MainsAreInner(id);
  }

  /** AUX and TIP tanks that carry planned fuel are never drained. */
  lemma OuterTanksStay(planned: Record, live: Record, maxFloor: real, id: string)
    requires Valid(live) && Outer(id) && CanDrain(planned, id)
    ensures Get(Redistributed(planned, live, maxFloor).tanks, id) == Get(planned, id)
  {
    AbsorbAt(Absorption(planned, 0.0), live, live.keys, maxFloor, id);
    DrainAllElsewhere(planned, AbsorbAll(planned, live, maxFloor), id);
  }

  lemma DrainAllElsewhere(planned: Record, a: Absorption, id: string)
    requires Outer(id)
    ensures Get(DrainAll(planned, a).tanks, id) == Get(a.tanks, id)
  {
    PairsAreInner(id);
    DrainFromElsewhere(planned, Drain(a.tanks, SumTankQty(a.tanks) - SumTankQty(planned), 0.0, 0), DRAIN_PAIRS, id);
  }

  lemma DrainFromElsewhere(planned: Record, start: Drain, pairs: seq<(string, string)>, id: string)
    requires Outer(id) && forall p <- pairs :: p.0 != id && p.1 != id
    ensures Get(DrainFrom(planned, start, pairs).tanks, id) == Get(start.tanks, id)
  {
    var d := DrainPairs(start, planned, pairs);
    DrainPairsElsewhere(start, planned, pairs, id);
    DrainTanksStays(d, planned, d.tanks.keys, id);
  }

  // ---- the methods ----

  /** Raise the plan to the residual floors. */
  method AbsorbFuelResidualFloors(planned: Record, live: Record, maxFloor: real) returns (tanks: Record, added: real)
    ensures Absorption(tanks, added) == AbsorbAll(planned, live, maxFloor)
  {
    tanks, added := planned, 0.0;
    assert live.keys[0..] == live.keys;
    for k := 0 to |live.keys|
      invariant Absorb(Absorption(tanks, added), live, live.keys[k..], maxFloor) == AbsorbAll(planned, live, maxFloor)
    {
      var id := live.keys[k];
      assert live.keys[k..][1..] == live.keys[k + 1..];
      var liveQty, want := Get(live, id), Get(tanks, id);
      if liveQty <= want + 0.05 {
        continue;
      }
      if want <= 0.5 && liveQty > 0.5 && liveQty <= maxFloor {
        added := added + (liveQty - want);
        tanks := Put(tanks, id, liveQty);
      }
    }
    assert live.keys[|live.keys|..] == [];
  }

  method DrainOnePair(tanks0: Record, excess0: real, reduced0: real, ghost writes: nat,
                      planned: Record, leftId: string, rightId: string)
    returns (tanks: Record, excess: real, reduced: real)
    requires excess0 > 0.05
    ensures var d := DrainPair(Drain(tanks0, excess0, reduced0, writes), planned, (leftId, rightId));
            tanks == d.tanks && excess == d.excess && reduced == d.reduced
  {
    tanks, excess, reduced := tanks0, excess0, reduced0;
    var canLeft, canRight := CanDrain(planned, leftId), CanDrain(planned, rightId);
    if !canLeft && !canRight {
      return;
    }
    var left, right := Get(tanks, leftId), Get(tanks, rightId);
    if left <= 0.0 && right <= 0.0 && leftId !in tanks.qty && rightId !in tanks.qty {
      return;
    }
    var pair := (if canLeft then left else 0.0) + (if canRight then right else 0.0);
    if pair <= 0.05 {
      return;
    }
    var take := Min(excess, pair);
    var nextLeft := if canLeft then Max(0.0, left - take / 2.0) else left;
    var nextRight := if canRight then Max(0.0, right - take / 2.0) else right;
    var leftover := take - (left - nextLeft + (right - nextRight));
    if leftover > 0.01 && canLeft && nextLeft >= leftover {
      nextLeft := nextLeft - leftover;
      leftover := 0.0;
    }
    if leftover > 0.01 && canRight && nextRight >= leftover {
      nextRight := nextRight - leftover;
      leftover := 0.0;
    }
    var removed := left - nextLeft + (right - nextRight);
    tanks := Put(Put(tanks, leftId, Round100(nextLeft)), rightId, Round100(nextRight));
    excess := excess - removed;
    reduced := reduced + removed;
  }

  /** Keep the planned total: accept the floors and pull the same quantity out elsewhere. */
  method RedistributeAroundResidualFloors(planned: Record, live: Record, maxFloor: real) returns (r: Outcome)
    ensures r == Redistributed(planned, live, maxFloor)
  {
    var targetTotal := SumTankQty(planned);
    var tanks, added := AbsorbFuelResidualFloors(planned, live, maxFloor);
    if added <= 0.05 {
      return Outcome(planned, 0.0, 0.0);
    }
    var excess, reduced := SumTankQty(tanks) - targetTotal, 0.0;
    if excess <= 0.05 {
      return Outcome(tanks, added, 0.0);
    }
    tanks, excess, reduced := DrainThem(tanks, excess, planned);
    r := Outcome(tanks, added, reduced);
  }

  method DrainThem(tanks0: Record, excess0: real, planned: Record)
    returns (tanks: Record, excess: real, reduced: real)
    ensures var p := DrainPairs(Drain(tanks0, excess0, 0.0, 0), planned, DRAIN_PAIRS);
            var d := DrainTanks(p, planned, p.tanks.keys);
            tanks == d.tanks && excess == d.excess && reduced == d.reduced
  {
    ghost var d := Drain(tanks0, excess0, 0.0, 0);
    ghost var p := DrainPairs(d, planned, DRAIN_PAIRS);
    tanks, excess, reduced := tanks0, excess0, 0.0;
    assert DRAIN_PAIRS[0..] == DRAIN_PAIRS;
    for k := 0 to |DRAIN_PAIRS|
      invariant tanks == d.tanks && excess == d.excess && reduced == d.reduced
      invariant DrainPairs(d, planned, DRAIN_PAIRS[k..]) == p
    {
      assert DRAIN_PAIRS[k..][0] == DRAIN_PAIRS[k] && DRAIN_PAIRS[k..][1..] == DRAIN_PAIRS[k + 1..];
      var pair := DRAIN_PAIRS[k];
      if excess > 0.05 {
        tanks, excess, reduced := DrainOnePair(tanks, excess, reduced, d.writes, planned, pair.0, pair.1);
      }
      d := DrainPair(d, planned, pair);
    }
    assert DRAIN_PAIRS[|DRAIN_PAIRS|..] == [];
    tanks, excess, reduced := DrainRest(tanks, excess, reduced, p.writes, planned);
  }

  /** The last loop, over the keys the record has when the loop starts. */
  method DrainRest(tanks0: Record, excess0: real, reduced0: real, ghost writes: nat, planned: Record)
    returns (tanks: Record, excess: real, reduced: real)
    ensures var d := DrainTanks(Drain(tanks0, excess0, reduced0, writes), planned, tanks0.keys);
            tanks == d.tanks && excess == d.excess && reduced == d.reduced
  {
    tanks, excess, reduced := tanks0, excess0, reduced0;
    var ids := tanks0.keys;
    ghost var d := Drain(tanks0, excess0, reduced0, writes);
    ghost var goal := DrainTanks(d, planned, ids);
    assert ids[0..] == ids;
    for k := 0 to |ids|
      invariant tanks == d.tanks && excess == d.excess && reduced == d.reduced
      invariant DrainTanks(d, planned, ids[k..]) == goal
    {
      var id := ids[k];
      assert ids[k..][0] == id && ids[k..][1..] == ids[k + 1..];
      var cur := Get(tanks, id);
      if excess > 0.05 && CanDrain(planned, id) && !Outer(id) && cur > 0.05 {
        var take := Min(excess, cur);
        tanks := Put(tanks, id, Round100(cur - take));
        excess := excess - take;
        reduced := reduced + take;
      }
      d := DrainTank(d, planned, id);
    }
    assert ids[|ids|..] == [];
  }
}
