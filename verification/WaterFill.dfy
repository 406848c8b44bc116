/** The one-pound water-fill behind `equalizeMovableStations`: the lightest station with room
    takes at most one pound at a time. */
module {:induction false} WaterFill {
  import opened Options
  import opened Weights
  import opened Stations

  /** The listed stations that still have room. */
  function Open(w: Load, cap: Load, ids: seq<int>): seq<int> {
    if ids == [] then []
    else if At(w, ids[0]) < At(cap, ids[0]) then [ids[0]] + Open(w, cap, ids[1..])
    else Open(w, cap, ids[1..])
  }

  /** Sort order of the fill: lighter first, lower index on a tie. */
  predicate Before(w: Load, a: int, b: int) {
    At(w, a) < At(w, b) || (At(w, a) == At(w, b) && a <= b)
  }

  /** The first station of `ids` in fill order. */
  function Lightest(w: Load, ids: seq<int>): (r: int)
    requires ids != []
    ensures r in ids
  {
    if |ids| == 1 then ids[0]
    else
      var rest := Lightest(w, ids[1..]);
      if Before(w, ids[0], rest) then ids[0] else rest
  }

  lemma {:induction false} LightestIsFirst(w: Load, ids: seq<int>, i: int)
    requires i in ids
    ensures Before(w, Lightest(w, ids), i)
  {
    assert ids == [ids[0]] + ids[1..];
    if |ids| > 1 {
      LightestIsFirst(w, ids[1..], if i in ids[1..] then i else ids[1]);
    }
  }

  /** The least natural number that is at least `x`. */
  function CeilNat(x: real): nat
    decreases x
  {
    if x <= 0.0 then 0 else 1 + CeilNat(x - 1.0)
  }

  function Dose(w: Load, cap: Load, i: int, amount: real): real {
    Min(1.0, Min(amount, At(cap, i) - At(w, i)))
  }

  /** The level reached by pouring `amount` over the stations `ids`. It stops early when no
      station has room; each dose either uses up a pound, ends the amount, or closes a station. */
  function Pour(w: Load, cap: Load, ids: seq<int>, amount: real): Load
    decreases |Open(w, cap, ids)| + CeilNat(amount)
  {
    if amount <= 0.0 || Open(w, cap, ids) == [] then w
    else
      var i := Lightest(w, Open(w, cap, ids));
      assert i in ids && At(w, i) < At(cap, i) by { OpenHas(w, cap, ids, i); }
      var take := Dose(w, cap, i, amount);
      assert |Open(w[i := At(w, i) + take], cap, ids)| + CeilNat(amount - take)
          < |Open(w, cap, ids)| + CeilNat(amount) by { DoseShrinks(w, cap, ids, i, amount); }
      Pour(w[i := At(w, i) + take], cap, ids, amount - take)
  }

  ghost predicate Flows(w: Load, cap: Load, ids: seq<int>, amount: real) {
    amount > 0.0 && Open(w, cap, ids) != []
  }

  /** Who is served first, and with how much. */
  lemma FirstDose(w: Load, cap: Load, ids: seq<int>, amount: real) returns (i: int, take: real)
    requires Flows(w, cap, ids, amount)
    ensures i == Lightest(w, Open(w, cap, ids)) && i in ids && At(w, i) < At(cap, i)
    ensures take == Dose(w, cap, i, amount) && take > 0.0
    ensures |Open(w[i := At(w, i) + take], cap, ids)| + CeilNat(amount - take) < |Open(w, cap, ids)| + CeilNat(amount)
  {
    i := Lightest(w, Open(w, cap, ids));
    take := Dose(w, cap, i, amount);
    OpenHas(w, cap, ids, i);
    DoseShrinks(w, cap, ids, i, amount);
  }

  lemma PourOnce(w: Load, cap: Load, ids: seq<int>, amount: real, i: int, take: real)
    requires Flows(w, cap, ids, amount) && i == Lightest(w, Open(w, cap, ids)) && take == Dose(w, cap, i, amount)
    ensures Pour(w, cap, ids, amount) == Pour(w[i := At(w, i) + take], cap, ids, amount - take)
  {
    var k, d := FirstDose(w, cap, ids, amount);
  }

  /** One turn of the fill. */
  lemma PourTurn(w: Load, cap: Load, ids: seq<int>, amount: real) returns (i: int, take: real, v: Load)
    requires Flows(w, cap, ids, amount)
    ensures i == Lightest(w, Open(w, cap, ids)) && i in ids && At(w, i) < At(cap, i)
    ensures take == Dose(w, cap, i, amount) && take > 0.0
    ensures v == w[i := At(w, i) + take]
    ensures Pour(w, cap, ids, amount) == Pour(v, cap, ids, amount - take)
    ensures |Open(v, cap, ids)| + CeilNat(amount - take) < |Open(w, cap, ids)| + CeilNat(amount)
  {
    i, take := FirstDose(w, cap, ids, amount);
    PourOnce(w, cap, ids, amount, i, take);
    v := w[i := At(w, i) + take];
  }

  /** The turn goes to a station no heavier than any other one with room. */
  lemma TurnIsLightest(w: Load, cap: Load, ids: seq<int>, j: int)
    requires j in ids && At(w, j) < At(cap, j)
    ensures Open(w, cap, ids) != [] && Before(w, Lightest(w, Open(w, cap, ids)), j)
  {
    OpenHas(w, cap, ids, j);
    LightestIsFirst(w, Open(w, cap, ids), j);
  }

  lemma {:induction false} OpenHas(w: Load, cap: Load, ids: seq<int>, i: int)
    ensures i in Open(w, cap, ids) <==> i in ids && At(w, i) < At(cap, i)
  {
    if ids != [] {
      OpenHas(w, cap, ids[1..], i);
      assert ids == [ids[0]] + ids[1..];
    }
  }

  lemma {:induction false} OpenShrinks(w: Load, cap: Load, ids: seq<int>, i: int, x: real)
    requires At(w, i) <= x
    ensures |Open(w[i := x], cap, ids)| <= |Open(w, cap, ids)|
    ensures i in ids && At(w, i) < At(cap, i) <= x ==>
              |Open(w[i := x], cap, ids)| < |Open(w, cap, ids)|
  {
    if ids != [] {
      OpenShrinks(w, cap, ids[1..], i, x);
    }
  }

  lemma DoseShrinks(w: Load, cap: Load, ids: seq<int>, i: int, amount: real)
    requires amount > 0.0 && i in ids && At(w, i) < At(cap, i)
    ensures var take := Dose(w, cap, i, amount);
            0.0 < take <= 1.0 && take <= amount && At(w, i) + take <= At(cap, i) &&
            |Open(w[i := At(w, i) + take], cap, ids)| + CeilNat(amount - take)
              < |Open(w, cap, ids)| + CeilNat(amount)
  {
    var take := Dose(w, cap, i, amount);
    OpenShrinks(w, cap, ids, i, At(w, i) + take);
    CeilMonotone(amount - take, amount);
  }

  lemma {:induction false} CeilMonotone(a: real, b: real)
    requires a <= b
    ensures CeilNat(a) <= CeilNat(b)
    decreases b
  {
    if 0.0 < b {
      CeilMonotone(a - 1.0, b - 1.0);
    }
  }

  /** Pouring touches only the listed stations, never lowers one, and never passes a cap. */
  lemma {:induction false} PourBounds(w: Load, cap: Load, ids: seq<int>, amount: real, j: int)
    ensures At(w, j) <= At(Pour(w, cap, ids, amount), j) <= Max(At(w, j), At(cap, j))
    ensures j !in ids ==> At(Pour(w, cap, ids, amount), j) == At(w, j)
    decreases |Open(w, cap, ids)| + CeilNat(amount)
  {
    if Flows(w, cap, ids, amount) {
      var i, take, v := PourTurn(w, cap, ids, amount);
      PourBounds(v, cap, ids, amount - take, j);
    }
  }

  lemma {:induction false} PourKeys(w: Load, cap: Load, ids: seq<int>, amount: real)
    requires forall i <- ids :: i in w
    ensures Pour(w, cap, ids, amount).Keys == w.Keys
    decreases |Open(w, cap, ids)| + CeilNat(amount)
  {
    if Flows(w, cap, ids, amount) {
      var i, take, v := PourTurn(w, cap, ids, amount);
      PourKeys(v, cap, ids, amount - take);
    }
  }

  /** Exactness: every pound asked for is placed, unless all the room runs out first.
      `all` is any duplicate-free list that contains the poured stations. */
  lemma {:induction false} PourPlaces(w: Load, cap: Load, ids: seq<int>, amount: real, all: seq<int>)
    requires NoDup(ids) && NoDup(all) && Within(ids, all)
    requires amount >= 0.0
    ensures Sum(Pour(w, cap, ids, amount), all)
         == Sum(w, all) + Min(amount, Room(w, cap, ids))
    ensures Room(Pour(w, cap, ids, amount), cap, ids)
         == Room(w, cap, ids) - Min(amount, Room(w, cap, ids))
    decreases |Open(w, cap, ids)| + CeilNat(amount)
  {
    if Flows(w, cap, ids, amount) {
      var v, take := PourTurnAdds(w, cap, ids, amount, all);
      PourPlaces(v, cap, ids, amount - take, all);
    } else if amount <= 0.0 {
      RoomSign(w, cap, ids);
    } else if amount > 0.0 {
      NothingOpen(w, cap, ids);
    }
  }

  /** One turn adds its dose to the total and takes it from the room. */
  lemma PourTurnAdds(w: Load, cap: Load, ids: seq<int>, amount: real, all: seq<int>) returns (v: Load, take: real)
    requires NoDup(ids) && NoDup(all) && Within(ids, all) && Flows(w, cap, ids, amount)
    ensures 0.0 < take <= amount
    ensures Pour(w, cap, ids, amount) == Pour(v, cap, ids, amount - take)
    ensures |Open(v, cap, ids)| + CeilNat(amount - take) < |Open(w, cap, ids)| + CeilNat(amount)
    ensures Sum(v, all) == Sum(w, all) + take && Room(v, cap, ids) == Room(w, cap, ids) - take
  {
    var i, d, u := PourTurn(w, cap, ids, amount);
    v, take := u, d;
    SumUpdate(w, i, At(w, i) + d, all);
    RoomUpdate(w, cap, i, At(w, i) + d, ids);
  }

  lemma NothingOpen(w: Load, cap: Load, ids: seq<int>)
    requires Open(w, cap, ids) == []
    ensures Room(w, cap, ids) == 0.0
  {
    forall i <- ids ensures At(cap, i) <= At(w, i) {
      OpenHas(w, cap, ids, i);
    }
    RoomSign(w, cap, ids);
  }

  /** Max-min fairness: a station that received anything ends at most one pound above every
      listed station that still has room. */
  lemma {:induction false} PourIsFair(w: Load, cap: Load, ids: seq<int>, amount: real, r: Load, j: int, k: int)
    requires r == Pour(w, cap, ids, amount)
    requires k in ids && At(r, j) > At(w, j) && At(r, k) < At(cap, k)
    ensures At(r, j) <= At(r, k) + 1.0
    decreases |Open(w, cap, ids)| + CeilNat(amount)
  {
    if Flows(w, cap, ids, amount) {
      var i, take, v := PourTurn(w, cap, ids, amount);
      PourBounds(w, cap, ids, amount, k);
      PourBounds(v, cap, ids, amount - take, j);
      if At(r, j) > At(v, j) {
        PourIsFair(v, cap, ids, amount - take, r, j, k);
      } else {
        TurnIsLightest(w, cap, ids, k);
      }
    }
  }

  /** The order in which the stations are listed, and repeats in that list, do not matter. */
  lemma {:induction false} PourIgnoresOrder(w: Load, cap: Load, a: seq<int>, b: seq<int>, amount: real)
    requires forall i :: i in a <==> i in b
    ensures Pour(w, cap, a, amount) == Pour(w, cap, b, amount)
    decreases |Open(w, cap, a)| + CeilNat(amount)
  {
    if Flows(w, cap, a, amount) {
      var v, rest := PourBoth(w, cap, a, b, amount);
      PourIgnoresOrder(v, cap, a, b, rest);
    } else {
      NeitherFlows(w, cap, a, b, amount);
    }
  }

  /** One turn from a known first station. */
  lemma PourFrom(w: Load, cap: Load, ids: seq<int>, amount: real, i: int) returns (v: Load, rest: real)
    requires Flows(w, cap, ids, amount) && i == Lightest(w, Open(w, cap, ids))
    ensures v == w[i := At(w, i) + Dose(w, cap, i, amount)] && rest == amount - Dose(w, cap, i, amount)
    ensures Pour(w, cap, ids, amount) == Pour(v, cap, ids, rest)
    ensures |Open(v, cap, ids)| + CeilNat(rest) < |Open(w, cap, ids)| + CeilNat(amount)
  {
    var j, take, u := PourTurn(w, cap, ids, amount);
    v, rest := u, amount - take;
  }

  /** The same turn in both lists. */
  lemma PourBoth(w: Load, cap: Load, a: seq<int>, b: seq<int>, amount: real) returns (v: Load, rest: real)
    requires (forall i :: i in a <==> i in b) && Flows(w, cap, a, amount)
    ensures Pour(w, cap, a, amount) == Pour(v, cap, a, rest) && Pour(w, cap, b, amount) == Pour(v, cap, b, rest)
    ensures |Open(v, cap, a)| + CeilNat(rest) < |Open(w, cap, a)| + CeilNat(amount)
  {
    var i := Lightest(w, Open(w, cap, a));
    LightestAgree(w, cap, a, b);
    v, rest := PourFrom(w, cap, a, amount, i);
    var v', rest' := PourFrom(w, cap, b, amount, i);
    assert v == v' && rest == rest';
  }

  lemma NeitherFlows(w: Load, cap: Load, a: seq<int>, b: seq<int>, amount: real)
    requires (forall i :: i in a <==> i in b) && !Flows(w, cap, a, amount)
    ensures Pour(w, cap, a, amount) == w && Pour(w, cap, b, amount) == w
  {
    if Open(w, cap, b) != [] {
      OpenHas(w, cap, b, Open(w, cap, b)[0]);
      OpenHas(w, cap, a, Open(w, cap, b)[0]);
    }
  }

  /** Lists with the same members agree on the first open station. */
  lemma LightestAgree(w: Load, cap: Load, a: seq<int>, b: seq<int>)
    requires (forall i :: i in a <==> i in b) && Open(w, cap, a) != []
    ensures Open(w, cap, b) != [] && Lightest(w, Open(w, cap, b)) == Lightest(w, Open(w, cap, a))
  {
    var i := Lightest(w, Open(w, cap, a));
    OpenHas(w, cap, a, i);
    TurnIsLightest(w, cap, b, i);
    OpenHas(w, cap, b, Lightest(w, Open(w, cap, b)));
    TurnIsLightest(w, cap, a, Lightest(w, Open(w, cap, b)));
  }

  /** Whole pounds stay whole when the caps and the amount are whole. */
  lemma {:induction false} PourWhole(w: Load, cap: Load, ids: seq<int>, amount: real, j: int)
    requires Whole(At(w, j)) && WholeOn(w, ids) && WholeOn(cap, ids) && Whole(amount)
    ensures Whole(At(Pour(w, cap, ids, amount), j))
    decreases |Open(w, cap, ids)| + CeilNat(amount)
  {
    if Flows(w, cap, ids, amount) {
      var v, rest := PourTurnWhole(w, cap, ids, amount, j);
      PourWhole(v, cap, ids, rest, j);
    }
  }

  lemma PourTurnWhole(w: Load, cap: Load, ids: seq<int>, amount: real, j: int) returns (v: Load, rest: real)
    requires Flows(w, cap, ids, amount)
    requires Whole(At(w, j)) && WholeOn(w, ids) && WholeOn(cap, ids) && Whole(amount)
    ensures Whole(At(v, j)) && WholeOn(v, ids) && Whole(rest)
    ensures Pour(w, cap, ids, amount) == Pour(v, cap, ids, rest)
    ensures |Open(v, cap, ids)| + CeilNat(rest) < |Open(w, cap, ids)| + CeilNat(amount)
  {
    var i, take, u := PourTurn(w, cap, ids, amount);
    v, rest := u, amount - take;
    assert Whole(At(w, i) + take) && Whole(rest) by {
      assert Whole(At(w, i)) && Whole(At(cap, i));
      DoseWhole(At(w, i), At(cap, i), amount);
    }
    WholeStep(w, ids, i, At(w, i) + take, j);
  }

  lemma DoseWhole(weight: real, cap: real, amount: real)
    requires Whole(weight) && Whole(cap) && Whole(amount)
    ensures var take := Min(1.0, Min(amount, cap - weight));
            Whole(weight + take) && Whole(amount - take)
  {
    var take := Min(1.0, Min(amount, cap - weight));
    WholeSum(0.0, weight);
    WholeSum(cap, -weight);
    WholeSum(0.0, take);
    WholeSum(weight, take);
    WholeSum(amount, -take);
  }

  lemma WholeStep(w: Load, ids: seq<int>, i: int, x: real, j: int)
    requires WholeOn(w, ids) && Whole(x) && Whole(At(w, j))
    ensures WholeOn(w[i := x], ids) && Whole(At(w[i := x], j))
  {
    forall k <- ids ensures Whole(At(w[i := x], k)) {
      assert Whole(At(w, k));
    }
  }

  lemma {:induction false} OpenLocal(w: Load, v: Load, cap: Load, ids: seq<int>)
    requires forall i <- ids :: At(w, i) == At(v, i)
    ensures Open(w, cap, ids) == Open(v, cap, ids)
  {
    if ids != [] {
      OpenLocal(w, v, cap, ids[1..]);
    }
  }

  lemma {:induction false} LightestLocal(w: Load, v: Load, ids: seq<int>)
    requires ids != [] && forall i <- ids :: At(w, i) == At(v, i)
    ensures Lightest(w, ids) == Lightest(v, ids)
  {
    if |ids| > 1 {
      LightestLocal(w, v, ids[1..]);
    }
  }

  /** The outcome at the listed stations depends only on the weights of the listed stations. */
  lemma {:induction false} PourLocal(w: Load, v: Load, cap: Load, ids: seq<int>, amount: real, j: int)
    requires forall i <- ids :: At(w, i) == At(v, i)
    requires j in ids
    ensures At(Pour(w, cap, ids, amount), j) == At(Pour(v, cap, ids, amount), j)
    decreases |Open(w, cap, ids)| + CeilNat(amount)
  {
    OpenLocal(w, v, cap, ids);
    if Flows(w, cap, ids, amount) {
      var open := Open(w, cap, ids);
      forall i <- open ensures At(w, i) == At(v, i) {
        OpenHas(w, cap, ids, i);
      }
      LightestLocal(w, v, open);
      var i, take, w' := PourTurn(w, cap, ids, amount);
      var i', take', v' := PourTurn(v, cap, ids, amount);
      PourLocal(w', v', cap, ids, amount - take, j);
    }
  }

  /** Weight a station starts from: what it holds, clamped to its cap, and lifted to the floor
      asked for. Without a floor the station keeps what it holds. */
  function StartLevel(w: Load, cap: Load, minRetain: Load, i: int): real {
    var max := At(cap, i);
    var floor := Min(max, Max(0.0, if i in minRetain then minRetain[i] else At(w, i)));
    Max(floor, Min(max, At(w, i)))
  }

  /** All listed stations brought to their start levels, in list order. */
  function Settle(w: Load, cap: Load, minRetain: Load, ids: seq<int>): Load
    decreases ids
  {
    if ids == [] then w
    else Settle(w[ids[0] := StartLevel(w, cap, minRetain, ids[0])], cap, minRetain, ids[1..])
  }

  lemma {:induction false} SettleAt(w: Load, cap: Load, minRetain: Load, ids: seq<int>, i: int)
    ensures At(Settle(w, cap, minRetain, ids), i)
         == if i in ids then StartLevel(w, cap, minRetain, i) else At(w, i)
    decreases ids
  {
    if ids != [] {
      SettleAt(w[ids[0] := StartLevel(w, cap, minRetain, ids[0])], cap, minRetain, ids[1..], i);
      assert ids == [ids[0]] + ids[1..];
    }
  }

  lemma {:induction false} SettleKeys(w: Load, cap: Load, minRetain: Load, ids: seq<int>)
    ensures Settle(w, cap, minRetain, ids).Keys == w.Keys + (set i | i in ids)
    decreases ids
  {
    if ids != [] {
      SettleKeys(w[ids[0] := StartLevel(w, cap, minRetain, ids[0])], cap, minRetain, ids[1..]);
      assert ids == [ids[0]] + ids[1..];
    }
  }

  /** Stations that already sit between their floor and their cap start from where they are. */
  lemma SettleIdentity(w: Load, cap: Load, minRetain: Load, ids: seq<int>)
    requires forall i <- ids :: i in w && 0.0 <= w[i] <= At(cap, i)
    requires forall i <- ids :: i in minRetain ==> minRetain[i] <= w[i]
    ensures Settle(w, cap, minRetain, ids) == w
  {
    var r := Settle(w, cap, minRetain, ids);
    SettleKeys(w, cap, minRetain, ids);
    assert r.Keys == w.Keys;
    forall i | i in w ensures r[i] == w[i] {
      SettleAt(w, cap, minRetain, ids, i);
    }
  }

  /** The layout `equalizeMovableStations` returns. */
  function Equalized(w: Load, p: Profile, ids: seq<int>, cargoLb: real, minRetain: Load, softMax: Load): Load {
    var cap := Caps(p, softMax, ids);
    Pour(Settle(w, cap, minRetain, ids), cap, ids, Max(0.0, RoundLb(cargoLb)))
  }

  /** Exactly min(rounded cargo, room) is placed on top of the start levels. */
  lemma EqualizedPlaces(w: Load, p: Profile, ids: seq<int>, cargoLb: real, minRetain: Load, softMax: Load, all: seq<int>)
    requires NoDup(ids) && NoDup(all) && Within(ids, all)
    ensures var start := Settle(w, Caps(p, softMax, ids), minRetain, ids);
            Sum(Equalized(w, p, ids, cargoLb, minRetain, softMax), all)
            == Sum(start, all) + Min(Max(0.0, RoundLb(cargoLb)), Room(start, Caps(p, softMax, ids), ids))
  {
    var cap := Caps(p, softMax, ids);
    PourPlaces(Settle(w, cap, minRetain, ids), cap, ids, Max(0.0, RoundLb(cargoLb)), all);
  }

  /** Movable stations keep their retained floor (as far as their cap allows) and stay within their
      cap; the others keep what they had. */
  lemma EqualizedBounds(w: Load, p: Profile, ids: seq<int>, cargoLb: real, minRetain: Load, softMax: Load, i: int)
    requires i in ids ==> EffectiveCap(p, softMax, i) >= 0.0
    ensures var e := Equalized(w, p, ids, cargoLb, minRetain, softMax);
            && (i !in ids ==> At(e, i) == At(w, i))
            && (i in ids ==> 0.0 <= At(e, i) <= EffectiveCap(p, softMax, i))
            && (i in ids ==> At(e, i) >= Min(EffectiveCap(p, softMax, i), if i in minRetain then minRetain[i] else At(w, i)))
  {
    var cap := Caps(p, softMax, ids);
    SettleAt(w, cap, minRetain, ids, i);
    PourBounds(Settle(w, cap, minRetain, ids), cap, ids, Max(0.0, RoundLb(cargoLb)), i);
  }

  /** Fairness: a station that received cargo ends at most a pound above any station that still
      has room. */
  lemma EqualizedIsFair(w: Load, p: Profile, ids: seq<int>, cargoLb: real, minRetain: Load, softMax: Load, j: int, k: int)
    requires k in ids
    requires At(Equalized(w, p, ids, cargoLb, minRetain, softMax), j)
             > At(Settle(w, Caps(p, softMax, ids), minRetain, ids), j)
    requires At(Equalized(w, p, ids, cargoLb, minRetain, softMax), k) < EffectiveCap(p, softMax, k)
    ensures At(Equalized(w, p, ids, cargoLb, minRetain, softMax), j)
         <= At(Equalized(w, p, ids, cargoLb, minRetain, softMax), k) + 1.0
  {
    var cap := Caps(p, softMax, ids);
    var start := Settle(w, cap, minRetain, ids);
    PourIsFair(start, cap, ids, Max(0.0, RoundLb(cargoLb)), Equalized(w, p, ids, cargoLb, minRetain, softMax), j, k);
  }

  /** The layout does not depend on the order in which the movable stations are listed. */
  lemma EqualizedIgnoresOrder(w: Load, p: Profile, a: seq<int>, b: seq<int>, cargoLb: real, minRetain: Load, softMax: Load)
    requires forall i :: i in a <==> i in b
    ensures Equalized(w, p, a, cargoLb, minRetain, softMax) == Equalized(w, p, b, cargoLb, minRetain, softMax)
  {
    var cap := Caps(p, softMax, a);
    assert cap == Caps(p, softMax, b);
    var sa, sb := Settle(w, cap, minRetain, a), Settle(w, cap, minRetain, b);
    SettleKeys(w, cap, minRetain, a);
    SettleKeys(w, cap, minRetain, b);
    assert (set i | i in a) == (set i | i in b);
    assert sa.Keys == sb.Keys;
    forall i | i in sa ensures sa[i] == sb[i] {
      SettleAt(w, cap, minRetain, a, i);
      SettleAt(w, cap, minRetain, b, i);
      assert sa[i] == At(sa, i) && sb[i] == At(sb, i);
    }
    assert sa == sb;
    PourIgnoresOrder(sa, cap, a, b, Max(0.0, RoundLb(cargoLb)));
  }

  /** Split `cargoLb` evenly across the movable stations on top of their current weights. */
  method EqualizeMovableStations(stations: Load, p: Profile, movable: seq<int>, cargoLb: real,
                                 minRetain: Load, softMax: Load)
    returns (next: Load)
    ensures next == Equalized(stations, p, movable, cargoLb, minRetain, softMax)
  {
    var caps := Caps(p, softMax, movable);
    next := stations;
    for k := 0 to |movable|
      invariant Settle(next, caps, minRetain, movable[k..]) == Settle(stations, caps, minRetain, movable)
    {
      var idx := movable[k];
      var max := caps[idx];
      var floor := Min(max, Max(0.0, if idx in minRetain then minRetain[idx] else At(next, idx)));
      assert movable[k..][1..] == movable[k + 1..];
      next := next[idx := Max(floor, Min(max, At(next, idx)))];
    }
    assert movable[|movable|..] == [];
    next := FillByPounds(next, caps, movable, Max(0.0, RoundLb(cargoLb)));
  }

  /** The fill loop: sort the open stations, give the first one up to a pound, repeat. */
  method FillByPounds(start: Load, caps: Load, movable: seq<int>, amount: real) returns (next: Load)
    ensures next == Pour(start, caps, movable, amount)
  {
    next := start;
    var remaining := amount;
    while remaining > 0.0
      invariant Pour(next, caps, movable, remaining) == Pour(start, caps, movable, amount)
      decreases |Open(next, caps, movable)| + CeilNat(remaining)
    {
      var open := Open(next, caps, movable);
      if open == [] {
        break;
      }
      var i := Lightest(next, open);
      var take := Min(1.0, Min(remaining, At(caps, i) - At(next, i)));
      ghost var i', take', v := PourTurn(next, caps, movable, remaining);
      next := next[i := At(next, i) + take];
      remaining := remaining - take;
    }
  }
}
