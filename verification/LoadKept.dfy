/** How much of the asked cargo a load plan keeps under the take-off limit, and when it refuses. */
module {:induction false} LoadKept {
  import opened Options
  import opened LoadErrors
  import opened Weights
  import opened Stations
  import opened CargoPlan
  import opened CargoPlanLaws
  import opened LoadPlan
  import FuelSplit

  /** Both figures of the take-off limit are given and positive. */
  predicate LimitGiven(q: Request) {
    q.emptyWeightLb.Some? && q.maxGrossWeightLb.Some? && q.emptyWeightLb.value > 0.0 && q.maxGrossWeightLb.value > 0.0
  }

  /** The cargo of the request, in rounded pounds. */
  function AskedLb(q: Request): real
    requires q.cargoKg.Some?
  {
    RoundLb(q.cargoKg.value * 2.2046226218)
  }

  /** Empty weight, placed fuel and reserved crew. */
  function BaseLb(q: Request, a: Aircraft, fuelLb: real): real
    requires LimitGiven(q)
  {
    q.emptyWeightLb.value + fuelLb + PlannedCrewLb(a.stations, a.roles.crew)
  }

  /** Under the limit the asked cargo is kept, or as much of it as comes within 25.5 lb of the limit; without
      a limit it is always kept. */
  ghost predicate KeepsCargo(q: Request, a: Aircraft, b: Built)
    requires q.cargoKg.Some?
  {
    if !LimitGiven(q) then b.requestedCargoLb == AskedLb(q)
    else
      && b.requestedCargoLb <= AskedLb(q)
      && (b.requestedCargoLb == AskedLb(q)
          || BaseLb(q, a, b.blockFuelLb) + b.requestedCargoLb > q.maxGrossWeightLb.value - 25.5)
  }

  lemma RoundsUpward(x: real, y: real)
    requires x <= y
    ensures RoundLb(x) <= RoundLb(y)
  {
    assert (x + 0.5).Floor <= (y + 0.5).Floor;
  }

  lemma LimitKeeps(q: Request, a: Aircraft, fuelLb: real, cargoLb: real)
    requires q.cargoKg.Some? && cargoLb == q.cargoKg.value * 2.2046226218 && LimitedCargoLb(q, a, fuelLb, cargoLb).Ok?
    ensures var kept := RoundLb(LimitedCargoLb(q, a, fuelLb, cargoLb).value);
            if !LimitGiven(q) then kept == AskedLb(q)
            else kept <= AskedLb(q) && (kept == AskedLb(q) || BaseLb(q, a, fuelLb) + kept > q.maxGrossWeightLb.value - 25.5)
  {
    if LimitGiven(q) {
      var room := q.maxGrossWeightLb.value - BaseLb(q, a, fuelLb) - 25.0;
      assert room == RoomLb(q, a, fuelLb);
      RoundWhole(room);
      RoundWhole(RoundLb(room));
      if cargoLb > room {
        RoundsUpward(room, cargoLb);
      }
    }
  }

  /** What a plan that is not refused keeps of the cargo. */
  lemma PlanKeepsCargo(q: Request, a: Aircraft)
    requires q.lbPerGal > 0.0 && Plan(q, a).Ok?
    ensures q.cargoKg.Some? && KeepsCargo(q, a, Plan(q, a).value)
  {
    var split := FuelSplit.Distributed(q.blockFuelLb.value, a.tanks, a.unit, q.lbPerGal, q.clampFuel);
    WithKeepsCargo(q, a, split);
  }

  lemma WithKeepsCargo(q: Request, a: Aircraft, split: Result<FuelSplit.FuelPlan, LoadError>)
    requires PlanWith(q, a, split).Ok?
    ensures q.cargoKg.Some? && KeepsCargo(q, a, PlanWith(q, a, split).value)
  {
    LimitKeeps(q, a, split.value.placedLb, q.cargoKg.value * 2.2046226218);
  }

  /** And it loads what it keeps, up to the capacity of the stations. */
  lemma PlanLoadsWhatItKeeps(q: Request, a: Aircraft)
    requires q.lbPerGal > 0.0 && Plan(q, a).Ok? && PlanReady(a.stations, CabinOf(a.stations, a.roles))
    ensures var b := Plan(q, a).value;
            var c := CabinOf(a.stations, a.roles);
            b.payload.total == CrewLb(a.stations, c) + PreservedLb(a.stations, c, q.live)
                               + Max(0.0, Min(b.requestedCargoLb, FillCapacityLb(a.stations, a.roles, Seeds(a.stations, c, q.live))))
  {
    var split := FuelSplit.Distributed(q.blockFuelLb.value, a.tanks, a.unit, q.lbPerGal, q.clampFuel);
    WithLoads(q, a, split);
  }

  lemma WithLoads(q: Request, a: Aircraft, split: Result<FuelSplit.FuelPlan, LoadError>)
    requires PlanWith(q, a, split).Ok? && PlanReady(a.stations, CabinOf(a.stations, a.roles))
    ensures var b := PlanWith(q, a, split).value;
            var c := CabinOf(a.stations, a.roles);
            b.payload.total == CrewLb(a.stations, c) + PreservedLb(a.stations, c, q.live)
                               + Max(0.0, Min(b.requestedCargoLb, FillCapacityLb(a.stations, a.roles, Seeds(a.stations, c, q.live))))
  {
    var lb := LimitedCargoLb(q, a, split.value.placedLb, q.cargoKg.value * FuelSplit.KG_TO_LB).value;
    assert !NoStations(CabinOf(a.stations, a.roles));
    assert PlanWith(q, a, split) == PlanPayload(q, a, split.value, lb);
    CargoIsConserved(lb, a.stations, a.roles, q.live);
  }

  // ---- refusals ----

  /** Every reason to refuse, in the order in which they are given. */
  lemma PlanRefuses(q: Request, a: Aircraft)
    requires q.lbPerGal > 0.0
    ensures var fuel := if q.blockFuelLb.Some? then FuelSplit.Distributed(q.blockFuelLb.value, a.tanks, a.unit, q.lbPerGal, q.clampFuel)
                        else Err(NoBlockFuel);
            if q.blockFuelLb.None? || q.blockFuelLb.value < 0.0 then Plan(q, a) == Err(NoBlockFuel)
            else if fuel.Err? then Plan(q, a) == Err(fuel.error)
            else if q.cargoKg.None? || q.cargoKg.value < 0.0 then Plan(q, a) == Err(NoCargo)
            else if LimitGiven(q) && q.maxGrossWeightLb.value - BaseLb(q, a, fuel.value.placedLb) < 25.5 then
              Plan(q, a) == Err(MtowNoRoom)
            else if NoStations(CabinOf(a.stations, a.roles)) then Plan(q, a) == Err(NoCargoStations)
            else Plan(q, a).Ok? && Plan(q, a).value.blockFuelLb == fuel.value.placedLb
  {
    if q.blockFuelLb.Some? && q.blockFuelLb.value >= 0.0 {
      WithRefuses(q, a, FuelSplit.Distributed(q.blockFuelLb.value, a.tanks, a.unit, q.lbPerGal, q.clampFuel));
    }
  }

  lemma WithRefuses(q: Request, a: Aircraft, split: Result<FuelSplit.FuelPlan, LoadError>)
    ensures if split.Err? then PlanWith(q, a, split) == Err(split.error)
            else if q.cargoKg.None? || q.cargoKg.value < 0.0 then PlanWith(q, a, split) == Err(NoCargo)
            else if LimitGiven(q) && q.maxGrossWeightLb.value - BaseLb(q, a, split.value.placedLb) < 25.5 then
              PlanWith(q, a, split) == Err(MtowNoRoom)
            else if NoStations(CabinOf(a.stations, a.roles)) then PlanWith(q, a, split) == Err(NoCargoStations)
            else PlanWith(q, a, split).Ok? && PlanWith(q, a, split).value.blockFuelLb == split.value.placedLb
  {
    if split.Ok? && q.cargoKg.Some? && q.cargoKg.value >= 0.0 {
      CargoRefuses(q, a, split.value, q.cargoKg.value * FuelSplit.KG_TO_LB);
    }
  }

  lemma CargoRefuses(q: Request, a: Aircraft, fuel: FuelSplit.FuelPlan, lb: real)
    ensures if LimitGiven(q) && q.maxGrossWeightLb.value - BaseLb(q, a, fuel.placedLb) < 25.5 then
              PlanCargo(q, a, fuel, lb) == Err(MtowNoRoom)
            else if NoStations(CabinOf(a.stations, a.roles)) then PlanCargo(q, a, fuel, lb) == Err(NoCargoStations)
            else PlanCargo(q, a, fuel, lb).Ok? && PlanCargo(q, a, fuel, lb).value.blockFuelLb == fuel.placedLb
  {
  }

  // ---- the reserved crew ----

  /** For known crew stations without repetition, exactly the weight they are seeded with is reserved: 170 lb,
      or less where a seat holds less. */
  lemma ReservedIsSeeded(p: Profile, crew: seq<int>)
    requires WellFormed(p) && NoDup(crew) && forall i <- crew :: Known(p, i)
    ensures PlannedCrewLb(p, crew) == CrewFloor(p, crew) && PlannedCrewLb(p, crew) <= 170.0 * |crew| as real
  {
    if crew == [] {
      CrewFloorNone(p, []);
    } else {
      assert crew == [crew[0]] + crew[1..] && crew[0] in crew;
      ReservedIsSeeded(p, crew[1..]);
      assert crew[0] !in crew[1..];
      CrewFloorAdds(p, crew[0], crew[1..]);
    }
  }

  /** A crew station the profile does not have is reserved with 170 lb. */
  lemma UnknownCrewIsReserved(p: Profile, crew: seq<int>)
    ensures PlannedCrewLb(p, crew) == PlannedCrewLb(p, Present(p, crew)) + 170.0 * (|crew| - |Present(p, crew)|) as real
  {
    if crew != [] {
      UnknownCrewIsReserved(p, crew[1..]);
      var rest := Present(p, crew[1..]);
      if Known(p, crew[0]) {
        assert Present(p, crew) == [crew[0]] + rest && ([crew[0]] + rest)[1..] == rest;
        assert PlannedCrewLb(p, [crew[0]] + rest) == Min(FREIGHTER_PILOT_LB, HardCap(p, crew[0])) + PlannedCrewLb(p, rest);
      } else {
        assert Present(p, crew) == rest;
      }
    }
  }

  lemma CrewFloorAdds(p: Profile, x: int, rest: seq<int>)
    requires WellFormed(p) && Known(p, x) && x !in rest
    ensures CrewFloor(p, [x] + rest) == Min(FREIGHTER_PILOT_LB, HardCap(p, x)) + CrewFloor(p, rest)
  {
    LookupHit(p, x);
    var k :| 0 <= k < |p| && p[k].index == x;
    LookupSelf(p, k);
    CrewFloorAt(p, x, rest, k);
  }

  lemma CrewFloorAt(p: Profile, x: int, rest: seq<int>, k: nat)
    requires (forall j, l :: 0 <= j < l < |p| ==> p[j].index != p[l].index) && k < |p| && p[k].index == x && x !in rest
    ensures CrewFloor(p, [x] + rest) == Min(FREIGHTER_PILOT_LB, p[k].maxLoad) + CrewFloor(p, rest)
  {
    var n := |p| - 1;
    if k == n {
      forall s <- p[..n] ensures s.index != x {
        var j :| 0 <= j < n && p[..n][j] == s;
        assert p[j].index != p[n].index;
      }
      CrewFloorWithout(p[..n], x, rest);
    } else {
      CrewFloorAt(p[..n], x, rest, k);
    }
  }

  lemma CrewFloorWithout(p: Profile, x: int, rest: seq<int>)
    requires forall s <- p :: s.index != x
    ensures CrewFloor(p, [x] + rest) == CrewFloor(p, rest)
  {
    CrewFloorSame(p, [x] + rest, rest);
  }
}
