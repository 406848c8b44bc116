/** From an OFP to a load plan: `buildOfpLoadPlan`, and the take-off weight it respects. */
module {:induction false} LoadPlan {
  import opened Options
  import opened LoadErrors
  import opened Weights
  import opened Stations
  import opened CargoPlan
  import opened CargoPlanLaws
  import FuelSplit

  /** The OFP and live figures the plan is built from, in the units they reach this function:
      block fuel in pounds, cargo in kilograms. */
  datatype Request = Request(
    blockFuelLb: Option<real>,
    cargoKg: Option<real>,
    lbPerGal: real,
    clampFuel: bool,
    emptyWeightLb: Option<real>,
    maxGrossWeightLb: Option<real>,
    live: Load)

  datatype Aircraft = Aircraft(tanks: seq<FuelSplit.Tank>, unit: FuelSplit.Unit, stations: Profile, roles: Roles)

  datatype Built = Built(fuel: FuelSplit.FuelPlan, payload: Payload, blockFuelLb: real, requestedCargoLb: real)

  const MARGIN_LB := 25.0

  /** Crew weight reserved under the take-off limit; an unknown crew station counts in full. */
  function PlannedCrewLb(p: Profile, crew: seq<int>): real {
    if crew == [] then 0.0
    else (if Known(p, crew[0]) then Min(FREIGHTER_PILOT_LB, HardCap(p, crew[0])) else FREIGHTER_PILOT_LB)
         + PlannedCrewLb(p, crew[1..])
  }

  predicate Limited(q: Request) {
    q.emptyWeightLb.Some? && q.emptyWeightLb.value > 0.0 && q.maxGrossWeightLb.Some? && q.maxGrossWeightLb.value > 0.0
  }

  /** Payload room under the take-off limit. */
  function RoomLb(q: Request, a: Aircraft, blockFuelLb: real): real
    requires Limited(q)
  {
    q.maxGrossWeightLb.value - q.emptyWeightLb.value - blockFuelLb - PlannedCrewLb(a.stations, a.roles.crew) - MARGIN_LB
  }

  /** The cargo after the optional take-off limit. */
  function LimitedCargoLb(q: Request, a: Aircraft, blockFuelLb: real, cargoLb: real): Result<real, LoadError> {
    if !Limited(q) then Ok(cargoLb)
    else if RoomLb(q, a, blockFuelLb) < 0.5 then Err(MtowNoRoom)
    else if cargoLb > RoomLb(q, a, blockFuelLb) then Ok(RoundLb(RoomLb(q, a, blockFuelLb)))
    else Ok(cargoLb)
  }

  /** The payload half of the plan, once the fuel is placed. */
  function PlanPayload(q: Request, a: Aircraft, fuel: FuelSplit.FuelPlan, cargoLb: real): Result<Built, LoadError> {
    match Distributed(cargoLb, a.stations, a.roles, q.live)
    case Err(e) => Err(e)
    case Ok(payload) => Ok(Built(fuel, payload, fuel.placedLb, RoundLb(cargoLb)))
  }

  /** The plan for so many pounds of cargo, before the take-off limit. */
  function PlanCargo(q: Request, a: Aircraft, fuel: FuelSplit.FuelPlan, cargoLb: real): Result<Built, LoadError> {
    match LimitedCargoLb(q, a, fuel.placedLb, cargoLb)
    case Err(e) => Err(e)
    case Ok(limited) => PlanPayload(q, a, fuel, limited)
  }

  /** The plan, given what the fuel split came to. */
  function PlanWith(q: Request, a: Aircraft, split: Result<FuelSplit.FuelPlan, LoadError>): Result<Built, LoadError> {
    match split
    case Err(e) => Err(e)
    case Ok(fuel) =>
      if q.cargoKg.None? || q.cargoKg.value < 0.0 then Err(NoCargo)
      else PlanCargo(q, a, fuel, q.cargoKg.value * FuelSplit.KG_TO_LB)
  }

  /** The outcome of `buildOfpLoadPlan`. */
  function Plan(q: Request, a: Aircraft): Result<Built, LoadError>
    requires q.lbPerGal > 0.0
  {
    if q.blockFuelLb.None? || q.blockFuelLb.value < 0.0 then Err(NoBlockFuel)
    else PlanWith(q, a, FuelSplit.Distributed(q.blockFuelLb.value, a.tanks, a.unit, q.lbPerGal, q.clampFuel))
  }

  /** Build the plan: fuel first, then the cargo that still fits, then the stations. */
  method BuildOfpLoadPlan(q: Request, a: Aircraft) returns (r: Result<Built, LoadError>)
    requires q.lbPerGal > 0.0
    ensures r == Plan(q, a)
  {
    if q.blockFuelLb.None? || q.blockFuelLb.value < 0.0 {
      return Err(NoBlockFuel);
    }
    var fuel := FuelSplit.DistributeFuelAcrossTanks(q.blockFuelLb.value, a.tanks, a.unit, q.lbPerGal, q.clampFuel);
    r := PlanRest(q, a, fuel);
  }

  method PlanRest(q: Request, a: Aircraft, fuel: Result<FuelSplit.FuelPlan, LoadError>) returns (r: Result<Built, LoadError>)
    ensures r == PlanWith(q, a, fuel)
  {
    if fuel.Err? {
      return Err(fuel.error);
    }
    if q.cargoKg.None? || q.cargoKg.value < 0.0 {
      return Err(NoCargo);
    }
    var cargo := LimitCargo(q, a, fuel.value.placedLb, q.cargoKg.value * FuelSplit.KG_TO_LB);
    if cargo.Err? {
      return Err(cargo.error);
    }
    r := PlacePayload(q, a, fuel.value, cargo.value);
  }

  method LimitCargo(q: Request, a: Aircraft, blockFuelLb: real, cargoLb0: real) returns (r: Result<real, LoadError>)
    ensures r == LimitedCargoLb(q, a, blockFuelLb, cargoLb0)
  {
    var cargoLb := cargoLb0;
    var plannedCrewLb := PlannedCrew(a.stations, a.roles.crew);
    if Limited(q) {
      var roomLb := q.maxGrossWeightLb.value - q.emptyWeightLb.value - blockFuelLb - plannedCrewLb - MARGIN_LB;
      if roomLb < 0.5 {
        return Err(MtowNoRoom);
      }
      if cargoLb > roomLb {
        cargoLb := RoundLb(roomLb);
      }
    }
    r := Ok(cargoLb);
  }

  method PlacePayload(q: Request, a: Aircraft, fuel: FuelSplit.FuelPlan, cargoLb: real) returns (r: Result<Built, LoadError>)
    ensures r == PlanPayload(q, a, fuel, cargoLb)
  {
    var payload := DistributeCargoAcrossStations(cargoLb, a.stations, a.roles, q.live);
    if payload.Err? {
      return Err(payload.error);
    }
    r := Ok(Built(fuel, payload.value, fuel.placedLb, RoundLb(cargoLb)));
  }

  method PlannedCrew(p: Profile, crew: seq<int>) returns (lb: real)
    ensures lb == PlannedCrewLb(p, crew)
  {
    lb := 0.0;
    assert crew[0..] == crew;
    for k := 0 to |crew|
      invariant lb + PlannedCrewLb(p, crew[k..]) == PlannedCrewLb(p, crew)
    {
      assert crew[k..][0] == crew[k] && crew[k..][1..] == crew[k + 1..];
      lb := lb + (if Known(p, crew[k]) then Min(FREIGHTER_PILOT_LB, HardCap(p, crew[k])) else FREIGHTER_PILOT_LB);
    }
    assert crew[|crew|..] == [];
  }

  // ---- the reserved crew weight covers the seeded one ----

  /** Crew floor of the stations of `p` that are in `crew`. */
  function CrewFloor(p: Profile, crew: seq<int>): real {
    if p == [] then 0.0
    else CrewFloor(p[..|p| - 1], crew)
         + (if p[|p| - 1].index in crew then Min(FREIGHTER_PILOT_LB, p[|p| - 1].maxLoad) else 0.0)
  }

  lemma {:induction false} CrewFloorIs(p: Profile, c: Roles)
    ensures CrewLb(p, c) == CrewFloor(p, c.crew)
  {
    if p != [] {
      CrewFloorIs(p[..|p| - 1], c);
    }
  }

  ghost predicate Plain(p: Profile) {
    (forall j, k :: 0 <= j < k < |p| ==> p[j].index != p[k].index) && forall s <- p :: s.maxLoad >= 0.0
  }

  lemma {:induction false} CrewFloorNone(p: Profile, crew: seq<int>)
    requires forall s <- p :: s.index !in crew
    ensures CrewFloor(p, crew) == 0.0
  {
    if p != [] {
      assert p[|p| - 1] in p;
      CrewFloorNone(p[..|p| - 1], crew);
    }
  }

  /** One more crew index adds at most the weight of the one station that carries it. */
  lemma {:induction false} CrewFloorOne(p: Profile, x: int, rest: seq<int>, lb: real)
    requires Plain(p) && lb >= 0.0
    requires forall s <- p :: s.index == x ==> Min(FREIGHTER_PILOT_LB, s.maxLoad) <= lb
    ensures CrewFloor(p, [x] + rest) <= lb + CrewFloor(p, rest)
    ensures (forall s <- p :: s.index != x) ==> CrewFloor(p, [x] + rest) == CrewFloor(p, rest)
  {
    if p != [] {
      var q, s := p[..|p| - 1], p[|p| - 1];
      assert s in p;
      if s.index == x {
        forall t <- q ensures t.index != x {
          var k :| 0 <= k < |q| && q[k] == t;
          assert p[k].index != s.index;
        }
      }
      CrewFloorOne(q, x, rest, lb);
    }
  }

  lemma {:induction false} CrewReserved(p: Profile, crew: seq<int>)
    requires WellFormed(p)
    ensures CrewFloor(p, crew) <= PlannedCrewLb(p, crew)
    ensures PlannedCrewLb(p, crew) >= 0.0
  {
    if crew == [] {
      CrewFloorNone(p, []);
    } else {
      var lb := if Known(p, crew[0]) then Min(FREIGHTER_PILOT_LB, HardCap(p, crew[0])) else FREIGHTER_PILOT_LB;
      LookupHit(p, crew[0]);
      forall s <- p | s.index == crew[0] ensures Min(FREIGHTER_PILOT_LB, s.maxLoad) <= lb {
        var k :| 0 <= k < |p| && p[k] == s;
        LookupSelf(p, k);
      }
      assert crew == [crew[0]] + crew[1..];
      CrewFloorOne(p, crew[0], crew[1..], lb);
      CrewReserved(p, crew[1..]);
    }
  }

  lemma {:induction false} PresentHas(p: Profile, ids: seq<int>, i: int)
    ensures i in Present(p, ids) <==> i in ids && Known(p, i)
  {
    if ids != [] {
      PresentHas(p, ids[1..], i);
      assert ids == [ids[0]] + ids[1..];
    }
  }

  lemma {:induction false} CrewFloorSame(p: Profile, a: seq<int>, b: seq<int>)
    requires forall s <- p :: s.index in a <==> s.index in b
    ensures CrewFloor(p, a) == CrewFloor(p, b)
  {
    if p != [] {
      assert p[|p| - 1] in p;
      CrewFloorSame(p[..|p| - 1], a, b);
    }
  }

  lemma SeededCrewIsReserved(a: Aircraft)
    requires WellFormed(a.stations)
    ensures CrewLb(a.stations, CabinOf(a.stations, a.roles)) <= PlannedCrewLb(a.stations, a.roles.crew)
  {
    var p, c := a.stations, CabinOf(a.stations, a.roles);
    CrewFloorIs(p, c);
    forall s <- p ensures s.index in c.crew <==> s.index in a.roles.crew {
      var k :| 0 <= k < |p| && p[k] == s;
      LookupSelf(p, k);
      PresentHas(p, a.roles.crew, s.index);
    }
    CrewFloorSame(p, c.crew, a.roles.crew);
    CrewReserved(p, a.roles.crew);
  }

  // ---- the take-off limit ----

  lemma CargoUnderRoom(q: Request, a: Aircraft, blockFuelLb: real, cargoLb: real)
    requires Limited(q) && LimitedCargoLb(q, a, blockFuelLb, cargoLb).Ok?
    ensures Max(0.0, RoundLb(LimitedCargoLb(q, a, blockFuelLb, cargoLb).value)) <= RoomLb(q, a, blockFuelLb) + 0.5
  {
    var room := RoomLb(q, a, blockFuelLb);
    RoundWhole(room);
    RoundWhole(RoundLb(room));
    RoundWhole(cargoLb);
  }

  /** The stations of a plan: crew floor, kept mass and no more cargo than asked. */
  lemma PayloadWeight(q: Request, a: Aircraft, fuel: FuelSplit.FuelPlan, cargoLb: real)
    requires PlanReady(a.stations, CabinOf(a.stations, a.roles)) && PlanPayload(q, a, fuel, cargoLb).Ok?
    ensures PlanPayload(q, a, fuel, cargoLb).value.payload.total
         <= PlannedCrewLb(a.stations, a.roles.crew)
            + PreservedLb(a.stations, CabinOf(a.stations, a.roles), q.live) + Max(0.0, RoundLb(cargoLb))
  {
    SeededCrewIsReserved(a);
    assert !NoStations(CabinOf(a.stations, a.roles));
    CargoIsConserved(cargoLb, a.stations, a.roles, q.live);
  }

  /** A plan within the take-off limit: empty weight, placed fuel and all stations together
      weigh at most the limit less 24.5 lb, plus the live mass that was kept. */
  ghost predicate UnderLimit(q: Request, b: Built, keptLb: real)
    requires Limited(q)
  {
    q.emptyWeightLb.value + b.blockFuelLb + b.payload.total <= q.maxGrossWeightLb.value - 24.5 + keptLb
  }

  lemma PlanCargoUnderLimit(q: Request, a: Aircraft, fuel: FuelSplit.FuelPlan, cargoLb: real)
    requires Limited(q) && PlanReady(a.stations, CabinOf(a.stations, a.roles))
    requires PlanCargo(q, a, fuel, cargoLb).Ok?
    ensures UnderLimit(q, PlanCargo(q, a, fuel, cargoLb).value,
                       PreservedLb(a.stations, CabinOf(a.stations, a.roles), q.live))
  {
    CargoUnderRoom(q, a, fuel.placedLb, cargoLb);
    PayloadWeight(q, a, fuel, LimitedCargoLb(q, a, fuel.placedLb, cargoLb).value);
  }

  lemma PlanWithUnderLimit(q: Request, a: Aircraft, split: Result<FuelSplit.FuelPlan, LoadError>)
    requires Limited(q) && PlanReady(a.stations, CabinOf(a.stations, a.roles))
    requires PlanWith(q, a, split).Ok?
    ensures UnderLimit(q, PlanWith(q, a, split).value, PreservedLb(a.stations, CabinOf(a.stations, a.roles), q.live))
  {
    var cargoLb := q.cargoKg.value * FuelSplit.KG_TO_LB;
    var built := PlanCargo(q, a, split.value, cargoLb);
    assert PlanWith(q, a, split) == built;
    assert UnderLimit(q, built.value, PreservedLb(a.stations, CabinOf(a.stations, a.roles), q.live)) by {
      PlanCargoUnderLimit(q, a, split.value, cargoLb);
    }
  }

  /** The take-off limit end to end, whatever live mass is kept on service and unmapped
      stations. */
  lemma TakeOffWeightIsKept(q: Request, a: Aircraft)
    requires q.lbPerGal > 0.0 && Limited(q)
    requires PlanReady(a.stations, CabinOf(a.stations, a.roles))
    requires Plan(q, a).Ok?
    ensures UnderLimit(q, Plan(q, a).value, PreservedLb(a.stations, CabinOf(a.stations, a.roles), q.live))
  {
    PlanWithUnderLimit(q, a, FuelSplit.Distributed(q.blockFuelLb.value, a.tanks, a.unit, q.lbPerGal, q.clampFuel));
  }

  /** No station keeps live mass. */
  ghost predicate NothingKept(a: Aircraft, live: Load) {
    forall s <- a.stations :: IsRole(CabinOf(a.stations, a.roles), s.index) || KeptLb(s, live) == 0.0
  }

  lemma {:induction false} NothingPreserved(p: Profile, c: Roles, live: Load)
    requires forall s <- p :: IsRole(c, s.index) || KeptLb(s, live) == 0.0
    ensures PreservedLb(p, c, live) == 0.0
  {
    if p != [] {
      assert p[|p| - 1] in p;
      NothingPreserved(p[..|p| - 1], c, live);
    }
  }

  /** Without preserved live mass the limit holds with its full margin. */
  lemma TakeOffWeightIsRespected(q: Request, a: Aircraft)
    requires q.lbPerGal > 0.0 && Limited(q) && NothingKept(a, q.live)
    requires PlanReady(a.stations, CabinOf(a.stations, a.roles))
    ensures Plan(q, a).Ok? ==> UnderLimit(q, Plan(q, a).value, 0.0)
  {
    if Plan(q, a).Ok? {
      TakeOffWeightIsKept(q, a);
      NothingPreserved(a.stations, CabinOf(a.stations, a.roles), q.live);
    }
  }
}
