/** The market ceiling `careerOperationalCargoMaxLb`, computed from sticky stations without
    looking at a load plan, against the capacity the cargo distribution really fills. */
module {:induction false} CargoCeiling {
  import opened Options
  import opened LoadErrors
  import opened Weights
  import opened Stations
  import opened WaterFill
  import opened CargoPlan
  import opened CargoPlanLaws

  /** A station as the market knows it: the limit may be missing. */
  datatype Sticky = Sticky(index: int, maxLoad: Option<real>)

  const FALLBACK_MAX_LOAD_LB := 500.0

  function Find(stations: seq<Sticky>, idx: int): Option<Sticky> {
    if stations == [] then None
    else if stations[0].index == idx then Some(stations[0])
    else Find(stations[1..], idx)
  }

  /** The limit when it is known and positive, else 0. */
  function MarketHardCap(stations: seq<Sticky>, idx: int): real {
    match Find(stations, idx)
    case Some(Sticky(_, Some(m))) => if m > 0.0 then m else 0.0
    case _ => 0.0
  }

  /** The limit when it is known (0 for a sealed seat), else the draft placeholder. */
  function MarketBagCap(stations: seq<Sticky>, idx: int): real {
    match Find(stations, idx)
    case Some(Sticky(_, Some(m))) => Max(0.0, m)
    case _ => FALLBACK_MAX_LOAD_LB
  }

  /** A soft limit, or the known hard limit below it; a limit of 0 counts as not known. */
  function SoftOf(stations: seq<Sticky>, idx: int, soft: real): real {
    Min(if MarketHardCap(stations, idx) == 0.0 then soft else MarketHardCap(stations, idx), soft)
  }

  function CrewSpare(stations: seq<Sticky>, crew: seq<int>): real {
    if crew == [] then 0.0
    else Max(0.0, SoftOf(stations, crew[0], SEAT_OCCUPANT_SOFT_MAX_LB) - FREIGHTER_PILOT_LB) + CrewSpare(stations, crew[1..])
  }

  function SoftRoom(stations: seq<Sticky>, ids: seq<int>, soft: real): real {
    if ids == [] then 0.0 else SoftOf(stations, ids[0], soft) + SoftRoom(stations, ids[1..], soft)
  }

  function BagTotal(stations: seq<Sticky>, ids: seq<int>): real {
    if ids == [] then 0.0 else MarketBagCap(stations, ids[0]) + BagTotal(stations, ids[1..])
  }

  function NotCrew(stations: seq<Sticky>, crew: seq<int>): seq<int> {
    if stations == [] then []
    else (if stations[0].index in crew then [] else [stations[0].index]) + NotCrew(stations[1..], crew)
  }

  /** The ceiling in pounds. */
  function CeilingLb(stations: seq<Sticky>, r: Roles): real {
    if r.pax != [] then
      RoundLb(CrewSpare(stations, r.crew) + SoftRoom(stations, r.pax, SEAT_OCCUPANT_SOFT_MAX_LB)
              + SoftRoom(stations, r.bags, GA_BAGGAGE_SOFT_MAX_LB))
    else if r.bags != [] then RoundLb(BagTotal(stations, r.bags))
    else RoundLb(BagTotal(stations, NotCrew(stations, r.crew)))
  }

  /** The profile's stations as the market stores them. */
  function StickyOf(p: Profile): seq<Sticky> {
    if p == [] then [] else [Sticky(p[0].index, Some(p[0].maxLoad))] + StickyOf(p[1..])
  }

  lemma {:induction false} FindSticky(p: Profile, idx: int)
    ensures Find(StickyOf(p), idx)
         == match Lookup(p, idx) case None => None case Some(s) => Some(Sticky(idx, Some(s.maxLoad)))
  {
    if p != [] {
      FindSticky(p[1..], idx);
    }
  }

  lemma MarketCaps(p: Profile, idx: int)
    requires WellFormed(p)
    ensures MarketHardCap(StickyOf(p), idx) == HardCap(p, idx)
    ensures MarketBagCap(StickyOf(p), idx) == if Known(p, idx) then HardCap(p, idx) else FALLBACK_MAX_LOAD_LB
    ensures HardCap(p, idx) >= 0.0
  {
    FindSticky(p, idx);
    LookupHit(p, idx);
  }

  ghost predicate Usable(p: Profile, ids: seq<int>) {
    forall i <- ids :: Known(p, i) && HardCap(p, i) > 0.0
  }

  lemma UsableTail(p: Profile, ids: seq<int>)
    requires ids != []
    ensures Usable(p, ids) <==> Known(p, ids[0]) && HardCap(p, ids[0]) > 0.0 && Usable(p, ids[1..])
  {
    assert ids == [ids[0]] + ids[1..];
  }

  lemma PresentStep(p: Profile, ids: seq<int>)
    requires ids != []
    ensures Present(p, ids) == if Known(p, ids[0]) then [ids[0]] + Present(p, ids[1..]) else Present(p, ids[1..])
  {
  }

  /** Crew seats: the spare the market counts against the room the fill sees. */
  lemma {:induction false} CrewSpareAgrees(p: Profile, crew: seq<int>, start: Load, soft: Load)
    requires WellFormed(p)
    requires forall i <- Present(p, crew) ::
               At(start, i) == Min(FREIGHTER_PILOT_LB, HardCap(p, i)) && At(soft, i) == Min(HardCap(p, i), SEAT_OCCUPANT_SOFT_MAX_LB)
    ensures CrewSpare(StickyOf(p), crew) >= Room(start, soft, Present(p, crew))
    ensures CrewSpare(StickyOf(p), crew) == Room(start, soft, Present(p, crew)) <==> Usable(p, crew)
  {
    if crew != [] {
      MarketCaps(p, crew[0]);
      PresentStep(p, crew);
      UsableTail(p, crew);
      if Known(p, crew[0]) {
        assert Present(p, crew)[0] in Present(p, crew);
      }
      CrewSpareAgrees(p, crew[1..], start, soft);
    }
  }

  /** Seats and bags that start empty: soft room against the same soft caps. */
  lemma {:induction false} SoftRoomAgrees(p: Profile, ids: seq<int>, cap: Load, soft: real)
    requires WellFormed(p) && soft > 0.0
    requires forall i <- Present(p, ids) :: At(cap, i) == Min(HardCap(p, i), soft)
    ensures SoftRoom(StickyOf(p), ids, soft) >= Sum(cap, Present(p, ids))
    ensures SoftRoom(StickyOf(p), ids, soft) == Sum(cap, Present(p, ids)) <==> Usable(p, ids)
  {
    if ids != [] {
      MarketCaps(p, ids[0]);
      PresentStep(p, ids);
      UsableTail(p, ids);
      if Known(p, ids[0]) {
        assert Present(p, ids)[0] in Present(p, ids);
      }
      SoftRoomAgrees(p, ids[1..], cap, soft);
    }
  }

  /** Freighter holds: known, and counted by the fill, which skips indexes that are not positive. */
  ghost predicate Holds(p: Profile, bags: seq<int>) {
    forall i <- bags :: Known(p, i) && (i > 0 || HardCap(p, i) == 0.0)
  }

  lemma {:induction false} BagTotalAgrees(p: Profile, bags: seq<int>)
    requires WellFormed(p)
    ensures BagTotal(StickyOf(p), bags) >= BagHardLb(p, bags)
    ensures BagTotal(StickyOf(p), bags) == BagHardLb(p, bags) <==> Holds(p, bags)
  {
    if bags != [] {
      MarketCaps(p, bags[0]);
      BagTotalAgrees(p, bags[1..]);
      assert bags == [bags[0]] + bags[1..];
    }
  }

  lemma RoomOfEmpty(start: Load, cap: Load, ids: seq<int>)
    requires forall i <- ids :: At(start, i) == 0.0 && At(cap, i) >= 0.0
    ensures Room(start, cap, ids) == Sum(cap, ids)
  {
    RoomIsSlack(start, cap, ids);
    ZeroSum(start, ids);
  }

  /** The unrounded GA ceiling. */
  function GaCeiling(stations: seq<Sticky>, r: Roles): real {
    CrewSpare(stations, r.crew) + SoftRoom(stations, r.pax, SEAT_OCCUPANT_SOFT_MAX_LB)
    + SoftRoom(stations, r.bags, GA_BAGGAGE_SOFT_MAX_LB)
  }

  lemma GaSplit(p: Profile, r: Roles, live: Load)
    requires PlanReady(p, CabinOf(p, r)) && Ga(CabinOf(p, r))
    ensures var c := CabinOf(p, r);
            var start := Seeds(p, c, live);
            && SeatRoomLb(p, c, start) == Room(start, SeatSoftMax(p, c), c.crew) + Sum(SeatSoftMax(p, c), c.pax)
            && (forall i <- c.crew :: At(start, i) == Min(FREIGHTER_PILOT_LB, HardCap(p, i)))
            && (forall i <- c.crew :: At(SeatSoftMax(p, c), i) == Min(HardCap(p, i), SEAT_OCCUPANT_SOFT_MAX_LB))
            && (forall i <- c.pax :: At(SeatSoftMax(p, c), i) == Min(HardCap(p, i), SEAT_OCCUPANT_SOFT_MAX_LB))
  {
    var c := CabinOf(p, r);
    var start := Seeds(p, c, live);
    ListsOf(p, c);
    RoomAppend(start, SeatSoftMax(p, c), c.crew, c.pax);
    forall i <- c.crew
      ensures At(start, i) == Min(FREIGHTER_PILOT_LB, HardCap(p, i))
      ensures At(SeatSoftMax(p, c), i) == Min(HardCap(p, i), SEAT_OCCUPANT_SOFT_MAX_LB)
    {
      SeatSeed(p, c, live, i);
      SeatCap(p, c, i);
    }
    forall i <- c.pax
      ensures At(start, i) == 0.0 && At(SeatSoftMax(p, c), i) >= 0.0
      ensures At(SeatSoftMax(p, c), i) == Min(HardCap(p, i), SEAT_OCCUPANT_SOFT_MAX_LB)
    {
      SeatSeed(p, c, live, i);
      SeatCap(p, c, i);
    }
    RoomOfEmpty(start, SeatSoftMax(p, c), c.pax);
  }

  /** GA cabins: the unrounded ceiling is never below the capacity the fill uses, and equal to
      it exactly when every role station is in the profile with a positive limit. A sealed
      seat (limit 0) or a station missing from the profile is counted by the market only. */
  lemma GaCeilingAgreesIff(p: Profile, r: Roles, live: Load)
    requires PlanReady(p, CabinOf(p, r)) && Ga(CabinOf(p, r))
    ensures var f := FillCapacityLb(p, r, Seeds(p, CabinOf(p, r), live));
            && GaCeiling(StickyOf(p), r) >= f
            && (GaCeiling(StickyOf(p), r) == f <==> Usable(p, r.crew) && Usable(p, r.pax) && Usable(p, r.bags))
  {
    var c := CabinOf(p, r);
    var start := Seeds(p, c, live);
    GaSplit(p, r, live);
    CrewSpareAgrees(p, r.crew, start, SeatSoftMax(p, c));
    SoftRoomAgrees(p, r.pax, SeatSoftMax(p, c), SEAT_OCCUPANT_SOFT_MAX_LB);
    forall i <- c.bags ensures At(BagSoftMax(p, c), i) == Min(HardCap(p, i), GA_BAGGAGE_SOFT_MAX_LB) {
      BagCap(p, c, i);
    }
    SoftRoomAgrees(p, r.bags, BagSoftMax(p, c), GA_BAGGAGE_SOFT_MAX_LB);
  }

  /** Freighters with a known baggage station: the same, for baggage stations with a positive
      index (or no capacity at all). */
  lemma FreighterCeilingAgreesIff(p: Profile, r: Roles, live: Load)
    requires PlanReady(p, CabinOf(p, r)) && r.pax == [] && CabinOf(p, r).bags != []
    ensures var f := FillCapacityLb(p, r, Seeds(p, CabinOf(p, r), live));
            && BagTotal(StickyOf(p), r.bags) >= f
            && (BagTotal(StickyOf(p), r.bags) == f <==> Holds(p, r.bags))
  {
    BagTotalAgrees(p, r.bags);
    assert CabinOf(p, r).pax == [];
  }

  /** Seats and baggage known, with a positive limit, and baggage with a positive index. Crew
      seats matter only in a GA cabin. */
  ghost predicate RolesUsable(p: Profile, r: Roles) {
    && (r.pax == [] || Usable(p, r.crew)) && Usable(p, r.pax) && Usable(p, r.bags)
    && forall i <- r.bags :: i > 0
  }

  lemma {:induction false} PresentAll(p: Profile, ids: seq<int>)
    requires forall i <- ids :: Known(p, i)
    ensures Present(p, ids) == ids
  {
    if ids != [] {
      assert ids[0] in ids;
      PresentAll(p, ids[1..]);
    }
  }

  /** The ceiling before it is rounded. */
  function Unrounded(stations: seq<Sticky>, r: Roles): real {
    if r.pax != [] then GaCeiling(stations, r)
    else if r.bags != [] then BagTotal(stations, r.bags)
    else BagTotal(stations, NotCrew(stations, r.crew))
  }

  lemma UsableCabin(p: Profile, r: Roles)
    requires RolesUsable(p, r) && (r.pax != [] || r.bags != [])
    ensures CabinOf(p, r).pax == r.pax && CabinOf(p, r).bags == r.bags && !NoStations(CabinOf(p, r))
  {
    PresentAll(p, r.pax);
    PresentAll(p, r.bags);
  }

  lemma UnroundedIsCapacity(p: Profile, r: Roles, live: Load)
    requires PlanReady(p, CabinOf(p, r)) && RolesUsable(p, r) && (r.pax != [] || r.bags != [])
    ensures Unrounded(StickyOf(p), r) == FillCapacityLb(p, r, Seeds(p, CabinOf(p, r), live))
  {
    UsableCabin(p, r);
    if r.pax != [] {
      GaCeilingAgreesIff(p, r, live);
    } else {
      FreighterCeilingAgreesIff(p, r, live);
      assert Holds(p, r.bags);
    }
  }

  lemma CeilingRounds(stations: seq<Sticky>, r: Roles)
    ensures CeilingLb(stations, r) == RoundLb(Unrounded(stations, r))
  {
  }

  lemma CeilingIsCapacity(p: Profile, r: Roles, live: Load)
    requires PlanReady(p, CabinOf(p, r)) && RolesUsable(p, r) && (r.pax != [] || r.bags != [])
    ensures CeilingLb(StickyOf(p), r) == FillCapacityLb(p, r, Seeds(p, CabinOf(p, r), live))
    ensures !NoStations(CabinOf(p, r))
  {
    var f := WholeCapacity(p, r, live);
    UnroundedIsCapacity(p, r, live);
    CeilingRounds(StickyOf(p), r);
    RoundWhole(f);
    UsableCabin(p, r);
  }

  lemma WholeCapacity(p: Profile, r: Roles, live: Load) returns (f: real)
    requires PlanReady(p, CabinOf(p, r))
    ensures f == FillCapacityLb(p, r, Seeds(p, CabinOf(p, r), live)) && Whole(f)
  {
    f := FillCapacityLb(p, r, Seeds(p, CabinOf(p, r), live));
    CapacityFacts(p, r, live);
  }

  /** What the market may offer is what gets loaded: cargo up to the ceiling is loaded to the
      pound, and anything above loads exactly the ceiling. */
  lemma CeilingIsLoaded(cargoLb: real, p: Profile, r: Roles, live: Load)
    requires PlanReady(p, CabinOf(p, r)) && RolesUsable(p, r) && (r.pax != [] || r.bags != [])
    requires cargoLb >= 0.0
    ensures var plan := Distributed(cargoLb, p, r, live);
            && plan.Ok?
            && plan.value.total - plan.value.crewLb - PreservedLb(p, CabinOf(p, r), live)
               == Min(RoundLb(cargoLb), CeilingLb(StickyOf(p), r))
  {
    var f := FillCapacityLb(p, r, Seeds(p, CabinOf(p, r), live));
    assert CeilingLb(StickyOf(p), r) == f && !NoStations(CabinOf(p, r)) by { CeilingIsCapacity(p, r, live); }
    assert f >= 0.0 by { CapacityFacts(p, r, live); }
    assert RoundLb(cargoLb) >= 0.0 by { assert (cargoLb + 0.5).Floor >= 0; }
    CargoIsConserved(cargoLb, p, r, live);
  }
}
