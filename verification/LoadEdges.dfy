/** Where the load planner is narrower than its comments, with the inputs that show it. */
module {:induction false} LoadEdges {
  import opened Options
  import opened LoadErrors
  import opened Weights
  import opened Stations
  import opened CargoPlan
  import opened CargoPlanLaws
  import opened LoadPlan
  import FuelSplit
  import FuelSplitLaws

  // ---- fuel: the band in which clamping does not help ----

  const ONE_TANK := [FuelSplit.Tank("CENTER", Some(10.0))]

  /** 10.03 gallons into 10 gallons fails even when asked to clamp; 10.06 gallons succeeds. */
  lemma ClampBandFails()
    ensures FuelSplit.Distributed(10.03, ONE_TANK, FuelSplit.Gallons, 1.0, true) == Err(FuelOverCapacity)
    ensures FuelSplit.Distributed(10.06, ONE_TANK, FuelSplit.Gallons, 1.0, true).Ok?
  {
    FloorIs(1000.0, 1000);
    FuelSplitLaws.SpareTankAcceptsIff(10.03, ONE_TANK, FuelSplit.Gallons, 1.0, true);
    FuelSplitLaws.SpareTankAcceptsIff(10.06, ONE_TANK, FuelSplit.Gallons, 1.0, true);
  }

  // ---- fuel: whole units in a pair ----

  /** Two main tanks of 100 and nothing else. */
  const MAIN_TANKS := [FuelSplit.Tank("LEFT_MAIN", Some(100.0)), FuelSplit.Tank("RIGHT_MAIN", Some(100.0))]

  lemma MainTanksReady(u: FuelSplit.Unit)
    requires !FuelSplit.Hundredths(u)
    ensures FuelSplitLaws.GridCapacities(MAIN_TANKS, u) && FuelSplit.CapacityTotal(MAIN_TANKS) == 200.0
    ensures FuelSplitLaws.EqualSides(FuelSplit.Capacities(MAIN_TANKS), FuelSplit.SYMMETRIC_PAIRS)
    ensures FuelSplitLaws.SpareCapacity(MAIN_TANKS) == 0.0
  {
    var tanks := MAIN_TANKS;
    var pairs := FuelSplit.SYMMETRIC_PAIRS;
    var cap := map["LEFT_MAIN" := 100.0, "RIGHT_MAIN" := 100.0];
    assert "LEFT_MAIN"[0] == 'L' && "RIGHT_MAIN"[0] == 'R';
    assert Whole(100.0);
    assert tanks[1..] == [tanks[1]] && tanks[1..][1..] == [];
    assert FuelSplit.Capacities(tanks[1..]) == map["RIGHT_MAIN" := 100.0];
    assert FuelSplit.Capacities(tanks) == cap;
    assert FuelSplit.CapacityTotal(tanks[1..]) == 100.0;
    var paired := FuelSplitLaws.PairedIn(cap, pairs);
    assert paired == {"LEFT_MAIN", "RIGHT_MAIN"} + FuelSplitLaws.PairedIn(cap, pairs[1..]);
    assert FuelSplitLaws.RestCapacity(tanks[1..], paired) == 0.0;
  }

  /** 100.8 into two tanks of 100 is refused in pounds and in kilograms. */
  lemma FractionalUnitsFail(u: FuelSplit.Unit, clamp: bool)
    requires !FuelSplit.Hundredths(u)
    ensures FuelSplit.Distributed(FuelSplit.LbFromQty(100.8, u, 6.0), MAIN_TANKS, u, 6.0, clamp) == Err(FuelOverCapacity)
  {
    MainTanksReady(u);
    FloorIs(50.9, 50);
    FuelSplitLaws.EqualSidesAcceptIff(FuelSplit.LbFromQty(100.8, u, 6.0), MAIN_TANKS, u, 6.0, clamp);
    FuelSplitLaws.DistributeAcceptsIff(FuelSplit.LbFromQty(100.8, u, 6.0), MAIN_TANKS, u, 6.0, clamp);
  }

  /** Two main tanks of 100.4 and nothing else. */
  ghost predicate OddMains(tanks: seq<FuelSplit.Tank>) {
    && |tanks| == 2
    && tanks[0] == FuelSplit.Tank("LEFT_MAIN", Some(100.4)) && tanks[1] == FuelSplit.Tank("RIGHT_MAIN", Some(100.4))
  }

  lemma OddCapacities(tanks: seq<FuelSplit.Tank>)
    requires OddMains(tanks)
    ensures FuelSplit.Capacities(tanks) == map["LEFT_MAIN" := 100.4, "RIGHT_MAIN" := 100.4]
    ensures FuelSplit.CapacityTotal(tanks) == 200.8 && FuelSplitLaws.Capacitated(tanks)
  {
    assert "LEFT_MAIN"[0] == 'L' && "RIGHT_MAIN"[0] == 'R';
    assert tanks[1..] == [tanks[1]] && tanks[1..][1..] == [];
    assert FuelSplit.Capacities(tanks[1..]) == map["RIGHT_MAIN" := 100.4];
    assert FuelSplit.CapacityTotal(tanks[1..]) == 100.4;
  }

  /** The first pair is all there is. */
  lemma MainsOnly(f: FuelSplit.Fill, cap: FuelSplit.Quantities, u: FuelSplit.Unit)
    requires cap.Keys == {"LEFT_MAIN", "RIGHT_MAIN"}
    ensures FuelSplit.FillPairs(f, cap, u, FuelSplit.SYMMETRIC_PAIRS) == FuelSplit.FillPair(f, cap, u, ("LEFT_MAIN", "RIGHT_MAIN"))
  {
    var pairs := FuelSplit.SYMMETRIC_PAIRS;
    var g := FuelSplit.FillPair(f, cap, u, pairs[0]);
    assert "LEFT_AUX"[5] == 'A' && "LEFT_MAIN"[5] == 'M' && "LEFT_TIP"[5] == 'T' && "RIGHT_MAIN"[0] == 'R';
    assert pairs[1..] == [("LEFT_AUX", "RIGHT_AUX"), ("LEFT_TIP", "RIGHT_TIP")] && pairs[1..][1..] == [("LEFT_TIP", "RIGHT_TIP")];
    assert FuelSplit.FillPairs(g, cap, u, pairs[1..][1..]) == g;
    assert FuelSplit.FillPairs(g, cap, u, pairs[1..]) == g;
  }

  lemma OddMainsLeave(tanks: seq<FuelSplit.Tank>, u: FuelSplit.Unit)
    requires OddMains(tanks) && !FuelSplit.Hundredths(u)
    ensures FuelSplitLaws.AfterPairs(tanks, u, 200.8).remaining == 0.8
  {
    var cap := map["LEFT_MAIN" := 100.4, "RIGHT_MAIN" := 100.4];
    OddCapacities(tanks);
    MainsOnly(FuelSplitLaws.Start(tanks, 200.8), cap, u);
    FloorIs(100.9, 100);
    assert FuelSplit.Shares(200.8, 100.4, 100.4) == (100.4, 100.4);
    assert FuelSplit.RoundFuel(100.4, u) == 100.0;
    assert "LEFT_MAIN"[0] == 'L' && "RIGHT_MAIN"[0] == 'R';
  }

  lemma OddMainsHaveNoSpare(tanks: seq<FuelSplit.Tank>)
    requires OddMains(tanks)
    ensures FuelSplitLaws.SpareCapacity(tanks) == 0.0
  {
    var pairs := FuelSplit.SYMMETRIC_PAIRS;
    var cap := map["LEFT_MAIN" := 100.4, "RIGHT_MAIN" := 100.4];
    OddCapacities(tanks);
    var paired := FuelSplitLaws.PairedIn(cap, pairs);
    assert paired == {"LEFT_MAIN", "RIGHT_MAIN"} + FuelSplitLaws.PairedIn(cap, pairs[1..]);
    assert tanks[1..] == [tanks[1]] && tanks[1..][1..] == [];
    assert FuelSplitLaws.RestCapacity(tanks[1..], paired) == 0.0;
  }

  /** With capacities off the grid, whole units refuse every request that has to be clamped. */
  lemma ClampingNeverHelps(lb: real, tanks: seq<FuelSplit.Tank>, u: FuelSplit.Unit)
    requires OddMains(tanks) && !FuelSplit.Hundredths(u) && lb >= 0.0 && FuelSplit.QtyFromLb(lb, u, 6.0) > 200.85
    ensures FuelSplit.Distributed(lb, tanks, u, 6.0, true) == Err(FuelOverCapacity)
  {
    OddCapacities(tanks);
    OddMainsLeave(tanks, u);
    OddMainsHaveNoSpare(tanks);
    FuelSplitLaws.AnyTanksAcceptIff(lb, tanks, u, 6.0, true);
  }

  // ---- take-off weight: live mass that is kept ----

  /** Whether a plan is refused does not depend on the live weights of the stations. */
  lemma RefusalIgnoresLive(q: Request, a: Aircraft, live: Load)
    requires q.lbPerGal > 0.0
    ensures Plan(q, a).Ok? <==> Plan(q.(live := live), a).Ok?
  {
    if q.blockFuelLb.Some? && q.blockFuelLb.value >= 0.0 {
      var split := FuelSplit.Distributed(q.blockFuelLb.value, a.tanks, a.unit, q.lbPerGal, q.clampFuel);
      PlanIgnoresLive(q, a, split, live);
    }
  }

  lemma PlanIgnoresLive(q: Request, a: Aircraft, split: Result<FuelSplit.FuelPlan, LoadError>, live: Load)
    ensures PlanWith(q, a, split).Ok? <==> PlanWith(q.(live := live), a, split).Ok?
  {
  }

  /** Fuel that the plan places, and cargo that it loads. */
  function PlacedFuelLb(q: Request, a: Aircraft): real
    requires q.lbPerGal > 0.0
  {
    if q.blockFuelLb.None? then 0.0
    else match FuelSplit.Distributed(q.blockFuelLb.value, a.tanks, a.unit, q.lbPerGal, q.clampFuel)
      case Err(_) => 0.0
      case Ok(fuel) => fuel.placedLb
  }

  function CarriedLb(q: Request, a: Aircraft): real
    requires q.lbPerGal > 0.0
  {
    if q.cargoKg.None? then 0.0
    else match LimitedCargoLb(q, a, PlacedFuelLb(q, a), q.cargoKg.value * FuelSplit.KG_TO_LB)
      case Err(_) => 0.0
      case Ok(lb) => LoadedLb(lb, a.stations, a.roles, q.live)
  }

  /** Room that is left below the take-off limit, less 24.5 lb, beside fuel, crew and cargo. */
  function SpareLb(q: Request, a: Aircraft): real
    requires q.lbPerGal > 0.0 && Limited(q)
  {
    q.maxGrossWeightLb.value - 24.5 - q.emptyWeightLb.value - PlacedFuelLb(q, a)
    - CrewLb(a.stations, CabinOf(a.stations, a.roles)) - CarriedLb(q, a)
  }

  lemma PlanParts(q: Request, a: Aircraft) returns (fuel: FuelSplit.FuelPlan, lb: real)
    requires q.lbPerGal > 0.0 && Plan(q, a).Ok?
    ensures Plan(q, a) == PlanPayload(q, a, fuel, lb)
    ensures PlacedFuelLb(q, a) == fuel.placedLb && CarriedLb(q, a) == LoadedLb(lb, a.stations, a.roles, q.live)
  {
    var split := FuelSplit.Distributed(q.blockFuelLb.value, a.tanks, a.unit, q.lbPerGal, q.clampFuel);
    fuel := split.value;
    assert PlacedFuelLb(q, a) == fuel.placedLb;
    lb := CargoPart(q, a, split);
  }

  lemma CargoPart(q: Request, a: Aircraft, split: Result<FuelSplit.FuelPlan, LoadError>) returns (lb: real)
    requires PlanWith(q, a, split).Ok?
    ensures split.Ok? && q.cargoKg.Some?
    ensures LimitedCargoLb(q, a, split.value.placedLb, q.cargoKg.value * FuelSplit.KG_TO_LB) == Ok(lb)
    ensures PlanWith(q, a, split) == PlanPayload(q, a, split.value, lb)
  {
    lb := LimitedCargoLb(q, a, split.value.placedLb, q.cargoKg.value * FuelSplit.KG_TO_LB).value;
  }

  lemma PayloadTotal(q: Request, a: Aircraft, fuel: FuelSplit.FuelPlan, lb: real)
    requires PlanReady(a.stations, CabinOf(a.stations, a.roles)) && PlanPayload(q, a, fuel, lb).Ok?
    ensures var b := PlanPayload(q, a, fuel, lb).value;
            var c := CabinOf(a.stations, a.roles);
            && b.blockFuelLb == fuel.placedLb
            && b.payload.total == CrewLb(a.stations, c) + PreservedLb(a.stations, c, q.live)
                                  + LoadedLb(lb, a.stations, a.roles, q.live)
  {
    assert !NoStations(CabinOf(a.stations, a.roles));
    CargoIsConserved(lb, a.stations, a.roles, q.live);
  }

  /** So live mass on service stations can take a plan over the limit: a plan stays under it, give or take
      any slack, exactly when the kept mass fits into the spare room. */
  lemma OverLimitIff(q: Request, a: Aircraft, slackLb: real)
    requires q.lbPerGal > 0.0 && Limited(q) && PlanReady(a.stations, CabinOf(a.stations, a.roles)) && Plan(q, a).Ok?
    ensures UnderLimit(q, Plan(q, a).value, slackLb)
            <==> PreservedLb(a.stations, CabinOf(a.stations, a.roles), q.live) <= SpareLb(q, a) + slackLb
  {
    var fuel, lb := PlanParts(q, a);
    PayloadTotal(q, a, fuel, lb);
  }

  /** 1000 lb empty and 2000 lb at most, 60 lb of fuel, no cargo, and 1000 lb live on a service station. */
  ghost predicate LoadedGalley(q: Request, a: Aircraft) {
    && q == Request(Some(60.0), Some(0.0), 6.0, false, Some(1000.0), Some(2000.0), map[2 := 1000.0])
    && a.tanks == [FuelSplit.Tank("CENTER", Some(100.0))] && a.unit == FuelSplit.Gallons
    && |a.stations| == 2
    && a.stations[0] == Station(1, 100.0, None, None, false) && a.stations[1] == Station(2, 1000.0, None, None, false)
    && a.roles == Roles([], [], [1], [2])
  }

  lemma GalleyFuel(q: Request, a: Aircraft)
    requires LoadedGalley(q, a)
    ensures FuelSplit.Distributed(60.0, a.tanks, a.unit, 6.0, false).Ok? && PlacedFuelLb(q, a) == 60.0
  {
    FloorIs(10000.0, 10000);
    assert a.tanks[1..] == [];
    assert FuelSplit.CapacityTotal(a.tanks) == 100.0;
    FuelSplitLaws.SpareTankAcceptsIff(60.0, a.tanks, a.unit, 6.0, false);
    assert FuelSplit.Ids(a.tanks)[0] == "CENTER";
    FuelSplitLaws.DistributeDelivers(60.0, a.tanks, a.unit, 6.0, false, "CENTER");
    var fuel := FuelSplit.Distributed(60.0, a.tanks, a.unit, 6.0, false).value;
    FloorIs(FuelSplit.Total(fuel.tanks, FuelSplit.Ids(a.tanks)) * 6.0 + 0.5, 60);
  }

  lemma GalleyCabin(q: Request, a: Aircraft)
    requires LoadedGalley(q, a)
    ensures CabinOf(a.stations, a.roles) == Roles([], [], [1], [2])
    ensures PlanReady(a.stations, CabinOf(a.stations, a.roles))
    ensures CrewLb(a.stations, CabinOf(a.stations, a.roles)) == 0.0
    ensures PreservedLb(a.stations, CabinOf(a.stations, a.roles), q.live) == 1000.0
  {
    var p := a.stations;
    assert [1][1..] == [];
    assert Present(p, [1]) == [1];
    assert Whole(100.0) && Whole(1000.0);
    RoundWhole(1000.0);
    assert p[..1] == [p[0]] && p[..1][..0] == [];
    assert CrewLb(p[..1], Roles([], [], [1], [2])) == 0.0;
    assert PreservedLb(p[..1], Roles([], [], [1], [2]), q.live) == 0.0;
  }

  lemma GalleyPlan(q: Request, a: Aircraft)
    requires LoadedGalley(q, a)
    ensures Plan(q, a).Ok?
  {
    GalleyFuel(q, a);
    var split := FuelSplit.Distributed(60.0, a.tanks, a.unit, 6.0, false);
    assert Plan(q, a) == PlanWith(q, a, split);
    assert split.value.placedLb == 60.0;
    assert !NoStations(CabinOf(a.stations, a.roles)) by {
      GalleyCabin(q, a);
    }
    GalleyCargo(q, a, split.value);
  }

  lemma GalleyCargo(q: Request, a: Aircraft, fuel: FuelSplit.FuelPlan)
    requires LoadedGalley(q, a) && fuel.placedLb == 60.0 && !NoStations(CabinOf(a.stations, a.roles))
    ensures PlanWith(q, a, Ok(fuel)).Ok?
  {
    assert RoomLb(q, a, 60.0) == 915.0;
    assert LimitedCargoLb(q, a, 60.0, 0.0) == Ok(0.0);
  }

  /** Its plan is accepted and weighs at least 2060 lb. */
  lemma LoadedGalleyIsTooHeavy(q: Request, a: Aircraft)
    requires LoadedGalley(q, a)
    ensures Plan(q, a).Ok?
    ensures var b := Plan(q, a).value;
            q.emptyWeightLb.value + b.blockFuelLb + b.payload.total >= 2060.0 > q.maxGrossWeightLb.value
  {
    GalleyPlan(q, a);
    GalleyFuel(q, a);
    GalleyCabin(q, a);
    var fuel, lb := PlanParts(q, a);
    PayloadTotal(q, a, fuel, lb);
  }
}
