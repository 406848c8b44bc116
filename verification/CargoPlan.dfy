/** Distributing the cargo over seats and baggage: `distributeCargoAcrossStations`. */
module {:induction false} CargoPlan {
  import opened Options
  import opened LoadErrors
  import opened Weights
  import opened Stations
  import opened WaterFill
  import opened LateralRows
  import opened FillStage

  const FREIGHTER_PILOT_LB := 170.0
  const SEAT_OCCUPANT_SOFT_MAX_LB := 300.0
  const FREIGHTER_CREW_STATION_SOFT_MAX_LB := 750.0
  const GA_BAGGAGE_SOFT_MAX_LB := 50.0

  /** Station indexes by role; a role that is not given is an empty list. */
  datatype Roles = Roles(crew: seq<int>, pax: seq<int>, bags: seq<int>, service: seq<int>)

  function Present(p: Profile, ids: seq<int>): seq<int> {
    if ids == [] then []
    else (if Known(p, ids[0]) then [ids[0]] else []) + Present(p, ids[1..])
  }

  /** The roles cut down to the stations the profile has. */
  function CabinOf(p: Profile, r: Roles): Roles {
    Roles(Present(p, r.crew), Present(p, r.pax), Present(p, r.bags), r.service)
  }

  function Dedupe(s: seq<int>): seq<int> {
    if s == [] then []
    else
      var n := |s| - 1;
      if s[n] in s[..n] then Dedupe(s[..n]) else Dedupe(s[..n]) + [s[n]]
  }

  function SeatsOf(c: Roles): seq<int> {
    Dedupe(c.crew + c.pax)
  }

  function MovableOf(c: Roles): seq<int> {
    Dedupe(SeatsOf(c) + c.bags)
  }

  /** Live weight kept on a service or unmapped station. */
  function KeptLb(s: Station, live: Load): real {
    RoundLb(if s.index in live then Min(Max(0.0, live[s.index]), s.maxLoad) else 0.0)
  }

  predicate IsRole(c: Roles, i: int) {
    i in c.crew || i in c.pax || (i in c.bags && i !in c.service)
  }

  /** What a station carries before any cargo is placed. */
  function StartLb(s: Station, c: Roles, live: Load): real {
    if s.index in c.crew then Min(FREIGHTER_PILOT_LB, s.maxLoad)
    else if IsRole(c, s.index) then 0.0
    else KeptLb(s, live)
  }

  function Seeds(p: Profile, c: Roles, live: Load): Load {
    if p == [] then map[]
    else
      var s := p[|p| - 1];
      Seeds(p[..|p| - 1], c, live)[s.index := StartLb(s, c, live)]
  }

  /** Stations whose live weight is kept: service stations, and unmapped ones with a reading. */
  function Preserved(p: Profile, c: Roles, live: Load): seq<int> {
    if p == [] then []
    else
      var s := p[|p| - 1];
      Preserved(p[..|p| - 1], c, live) +
      (if !IsRole(c, s.index) && (s.index in c.service || s.index in live) then [s.index] else [])
  }

  function CrewLb(p: Profile, c: Roles): real {
    if p == [] then 0.0
    else
      var s := p[|p| - 1];
      CrewLb(p[..|p| - 1], c) + (if s.index in c.crew then Min(FREIGHTER_PILOT_LB, s.maxLoad) else 0.0)
  }

  predicate Ga(c: Roles) {
    c.pax != []
  }

  function SeatSoftLb(c: Roles): real {
    if Ga(c) then SEAT_OCCUPANT_SOFT_MAX_LB else FREIGHTER_CREW_STATION_SOFT_MAX_LB
  }

  function SeatSoftMax(p: Profile, c: Roles): Load {
    map i | i in SeatsOf(c) :: Min(if Known(p, i) then HardCap(p, i) else SeatSoftLb(c), SeatSoftLb(c))
  }

  function BagSoftMax(p: Profile, c: Roles): Load {
    map i | i in c.bags :: if Ga(c) then Min(HardCap(p, i), GA_BAGGAGE_SOFT_MAX_LB) else HardCap(p, i)
  }

  /** Soft limits handed to the baggage fill: only a GA cabin has them. */
  function BagFillMax(p: Profile, c: Roles): Load {
    if Ga(c) then BagSoftMax(p, c) else map[]
  }

  /** Structural capacity of the mapped baggage stations with a positive index. */
  function BagHardLb(p: Profile, bags: seq<int>): real {
    if bags == [] then 0.0 else (if bags[0] > 0 then HardCap(p, bags[0]) else 0.0) + BagHardLb(p, bags[1..])
  }

  function SeatRoomLb(p: Profile, c: Roles, start: Load): real {
    Room(start, SeatSoftMax(p, c), SeatsOf(c))
  }

  function FillCapacityLb(p: Profile, r: Roles, start: Load): real {
    var c := CabinOf(p, r);
    if Ga(c) then SeatRoomLb(p, c, start) + Sum(BagSoftMax(p, c), c.bags)
    else if c.bags != [] then BagHardLb(p, r.bags)
    else SeatRoomLb(p, c, start)
  }

  /** The rounded cargo, cut to the fill capacity. */
  function RequestedLb(cargoLb: real, fillCapacityLb: real): real {
    if RoundLb(cargoLb) > fillCapacityLb then RoundLb(fillCapacityLb) else RoundLb(cargoLb)
  }

  function CrewRetain(c: Roles, start: Load): Load {
    map i | i in c.crew :: Min(FREIGHTER_PILOT_LB, At(start, i))
  }

  function GaRetain(c: Roles, start: Load): Load {
    map i | i in c.crew + c.pax :: if i in c.pax then 0.0 else Min(FREIGHTER_PILOT_LB, At(start, i))
  }

  function Zeros(ids: seq<int>): Load {
    map i | i in ids :: 0.0
  }

  /** Sum of what the listed stations gained. */
  function Gain(before: Load, after: Load, ids: seq<int>): real {
    if ids == [] then 0.0 else Max(0.0, At(after, ids[0]) - At(before, ids[0])) + Gain(before, after, ids[1..])
  }

  function SeatFill(p: Profile, c: Roles, start: Load, requested: real): Load {
    Equalized(start, p, SeatsOf(c), requested, GaRetain(c, start), SeatSoftMax(p, c))
  }

  /** GA: seats first. The layout after the seats, and what is left for the baggage. */
  function AfterSeats(p: Profile, c: Roles, start: Load, requested: real): (Load, real) {
    if !Ga(c) then (start, requested)
    else
      var filled := SeatFill(p, c, start, requested);
      (Balanced(filled, p, SeatsOf(c), SeatSoftMax(p, c)),
       Max(0.0, requested - Gain(start, filled, SeatsOf(c))))
  }

  function AfterBags(p: Profile, c: Roles, start: Load, w: Load, remaining: real): Load {
    if remaining > 0.0 && c.bags != [] then Staged(w, p, c.bags, remaining, Zeros(c.bags), BagFillMax(p, c))
    else if remaining > 0.0 && SeatsOf(c) != [] then
      Equalized(w, p, SeatsOf(c), remaining, CrewRetain(c, start), SeatSoftMax(p, c))
    else w
  }

  function FinalLayout(p: Profile, c: Roles, start: Load, requested: real): Load {
    var seats := AfterSeats(p, c, start, requested);
    AfterBags(p, c, start, seats.0, seats.1)
  }

  datatype Payload = Payload(stations: Load, total: real, preserved: seq<int>, cabin: Roles,
                             seats: seq<int>, movable: seq<int>, baggageCapacityLb: real,
                             cargoPlacedLb: real, crewLb: real)

  function BaggageCapacityLb(p: Profile, r: Roles): real {
    var c := CabinOf(p, r);
    if Ga(c) then Sum(BagSoftMax(p, c), c.bags) else BagHardLb(p, r.bags)
  }

  predicate NoStations(c: Roles) {
    c.bags == [] && c.crew == [] && c.pax == []
  }

  /** The outcome of `distributeCargoAcrossStations`. */
  function Distributed(cargoLb: real, p: Profile, r: Roles, live: Load): Result<Payload, LoadError> {
    var c := CabinOf(p, r);
    if NoStations(c) then Err(NoCargoStations)
    else
      var start := Seeds(p, c, live);
      var requested := RequestedLb(cargoLb, FillCapacityLb(p, r, start));
      var final := FinalLayout(p, c, start, requested);
      Ok(Payload(final, Sum(final, Indexes(p)), Preserved(p, c, live), c, SeatsOf(c), MovableOf(c),
                 BaggageCapacityLb(p, r), RoundLb(Gain(start, final, MovableOf(c))), CrewLb(p, c)))
  }

  // ---- the method ----

  /** The loop that seeds crew seats and keeps live weights. */
  method SeedStations(p: Profile, c: Roles, live: Load) returns (stations: Load, preserved: seq<int>, crewLb: real)
    ensures stations == Seeds(p, c, live) && preserved == Preserved(p, c, live) && crewLb == CrewLb(p, c)
  {
    stations, preserved, crewLb := map[], [], 0.0;
    for k := 0 to |p|
      invariant stations == Seeds(p[..k], c, live)
      invariant preserved == Preserved(p[..k], c, live)
      invariant crewLb == CrewLb(p[..k], c)
    {
      var s := p[k];
      assert p[..k + 1][..k] == p[..k] && p[..k + 1][k] == s;
      if s.index in c.crew {
        var value := Min(FREIGHTER_PILOT_LB, s.maxLoad);
        stations := stations[s.index := value];
        crewLb := crewLb + value;
      } else if s.index in c.pax {
        stations := stations[s.index := 0.0];
      } else if s.index in c.service {
        stations := stations[s.index := KeptLb(s, live)];
        preserved := preserved + [s.index];
      } else if s.index in c.bags {
        stations := stations[s.index := 0.0];
      } else {
        stations := stations[s.index := KeptLb(s, live)];
        if s.index in live {
          preserved := preserved + [s.index];
        }
      }
    }
    assert p[..|p|] == p;
  }

  /** Distribute the cargo: passenger cabins fill seats before baggage, freighters fill baggage
      and leave the crew alone. */
  method DistributeCargoAcrossStations(cargoLb: real, p: Profile, r: Roles, live: Load)
    returns (result: Result<Payload, LoadError>)
    ensures result == Distributed(cargoLb, p, r, live)
  {
    var c := CabinOf(p, r);
    if NoStations(c) {
      return Err(NoCargoStations);
    }
    var start, preserved, crewLb := SeedStations(p, c, live);
    var fillCapacity := FillCapacityLb(p, r, start);
    var requested := RoundLb(cargoLb);
    if requested > fillCapacity {
      requested := RoundLb(fillCapacity);
    }
    var stations, remaining := FillSeats(p, c, start, requested);
    stations := FillBags(p, c, start, stations, remaining);
    result := Ok(Payload(stations, Sum(stations, Indexes(p)), preserved, c, SeatsOf(c), MovableOf(c),
                         BaggageCapacityLb(p, r), RoundLb(Gain(start, stations, MovableOf(c))), crewLb));
  }

  /** Seats first in a GA cabin. */
  method FillSeats(p: Profile, c: Roles, start: Load, requested: real) returns (stations: Load, remaining: real)
    ensures (stations, remaining) == AfterSeats(p, c, start, requested)
  {
    if !Ga(c) {
      return start, requested;
    }
    var seats := SeatsOf(c);
    var filled := EqualizeMovableStations(start, p, seats, requested, GaRetain(c, start), SeatSoftMax(p, c));
    var placedOnSeats := Gain(start, filled, seats);
    stations := EqualizeLateralStationPairs(filled, p, seats, SeatSoftMax(p, c));
    remaining := Max(0.0, requested - placedOnSeats);
  }

  /** Baggage next; seats only when no baggage station is mapped. */
  method FillBags(p: Profile, c: Roles, start: Load, w: Load, remaining: real) returns (stations: Load)
    ensures stations == AfterBags(p, c, start, w, remaining)
  {
    stations := w;
    var seats := SeatsOf(c);
    if remaining > 0.0 && c.bags != [] {
      stations := EqualizeMovableStations(stations, p, c.bags, remaining, Zeros(c.bags), BagFillMax(p, c));
      stations := EqualizeLateralStationPairs(stations, p, c.bags, BagFillMax(p, c));
    } else if remaining > 0.0 && seats != [] {
      stations := EqualizeMovableStations(stations, p, seats, remaining, CrewRetain(c, start), SeatSoftMax(p, c));
    }
  }
}
