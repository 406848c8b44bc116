/** The market ceiling against the capacity the cargo fill uses, for every role map: the market looks at the
    roles as they are listed, the fill at the stations the profile knows. */
module {:induction false} CeilingRoles {
  import opened Options
  import opened Weights
  import opened Stations
  import opened CargoPlan
  import opened CargoPlanLaws
  import opened CargoCeiling

  /** Room of a freighter's crew seats, up to 750 lb each, above the 170 lb floor. */
  function FreighterSpare(p: Profile, crew: seq<int>): real {
    if crew == [] then 0.0
    else Max(0.0, Min(HardCap(p, crew[0]), FREIGHTER_CREW_STATION_SOFT_MAX_LB) - FREIGHTER_PILOT_LB) + FreighterSpare(p, crew[1..])
  }

  /** Structural limits of the stations that are not crew. */
  function LooseLb(p: Profile, crew: seq<int>): real {
    if p == [] then 0.0 else (if p[0].index in crew then 0.0 else p[0].maxLoad) + LooseLb(p[1..], crew)
  }

  // ---- what the fill counts without passengers ----

  lemma CrewRoomIs(p: Profile, crew: seq<int>, start: Load, soft: Load)
    requires forall i <- Present(p, crew) ::
               At(start, i) == Min(FREIGHTER_PILOT_LB, HardCap(p, i)) && At(soft, i) == Min(HardCap(p, i), FREIGHTER_CREW_STATION_SOFT_MAX_LB)
    ensures Room(start, soft, Present(p, crew)) == FreighterSpare(p, crew)
  {
    if crew != [] {
      PresentStep(p, crew);
      if Known(p, crew[0]) {
        assert Present(p, crew)[0] in Present(p, crew);
      }
      CrewRoomIs(p, crew[1..], start, soft);
    }
  }

  /** A cabin without a known passenger seat fills its baggage stations, or else its crew seats. */
  lemma FreighterFill(p: Profile, r: Roles, live: Load)
    requires PlanReady(p, CabinOf(p, r)) && !Ga(CabinOf(p, r))
    ensures FillCapacityLb(p, r, Seeds(p, CabinOf(p, r), live))
         == if CabinOf(p, r).bags != [] then BagHardLb(p, r.bags) else FreighterSpare(p, r.crew)
  {
    var c := CabinOf(p, r);
    var start := Seeds(p, c, live);
    ListsOf(p, c);
    forall i <- Present(p, r.crew)
      ensures At(start, i) == Min(FREIGHTER_PILOT_LB, HardCap(p, i))
      ensures At(SeatSoftMax(p, c), i) == Min(HardCap(p, i), FREIGHTER_CREW_STATION_SOFT_MAX_LB)
    {
      SeatSeed(p, c, live, i);
      SeatCap(p, c, i);
    }
    CrewRoomIs(p, r.crew, start, SeatSoftMax(p, c));
    assert SeatsOf(c) == Present(p, r.crew);
  }

  // ---- what the market counts for stations the profile does not have ----

  lemma UnknownPax(p: Profile, pax: seq<int>)
    requires WellFormed(p) && Present(p, pax) == []
    ensures SoftRoom(StickyOf(p), pax, SEAT_OCCUPANT_SOFT_MAX_LB) == 300.0 * |pax| as real
  {
    if pax != [] {
      PresentStep(p, pax);
      MarketCaps(p, pax[0]);
      FindSticky(p, pax[0]);
      UnknownPax(p, pax[1..]);
    }
  }

  lemma UnknownBags(p: Profile, bags: seq<int>)
    requires WellFormed(p) && Present(p, bags) == []
    ensures BagTotal(StickyOf(p), bags) == 500.0 * |bags| as real
  {
    if bags != [] {
      PresentStep(p, bags);
      MarketCaps(p, bags[0]);
      UnknownBags(p, bags[1..]);
    }
  }

  /** Without passenger and baggage roles the market counts every station that is not crew. */
  lemma LooseTotal(p: Profile, crew: seq<int>, k: nat)
    requires WellFormed(p) && k <= |p|
    ensures BagTotal(StickyOf(p), NotCrew(StickyOf(p[k..]), crew)) == LooseLb(p[k..], crew)
    decreases |p| - k
  {
    if k < |p| {
      assert p[k..][1..] == p[k + 1..] && p[k..][0] == p[k];
      LookupSelf(p, k);
      MarketCaps(p, p[k].index);
      LooseTotal(p, crew, k + 1);
      var rest := NotCrew(StickyOf(p[k + 1..]), crew);
      assert StickyOf(p[k..])[1..] == StickyOf(p[k + 1..]) && StickyOf(p[k..])[0].index == p[k].index;
      assert NotCrew(StickyOf(p[k..]), crew) == (if p[k].index in crew then [] else [p[k].index]) + rest;
      assert ([p[k].index] + rest)[1..] == rest && [] + rest == rest;
    } else {
      assert p[k..] == [];
    }
  }

  lemma UnknownSoftBags(p: Profile, bags: seq<int>)
    requires WellFormed(p) && Present(p, bags) == []
    ensures SoftRoom(StickyOf(p), bags, GA_BAGGAGE_SOFT_MAX_LB) == 50.0 * |bags| as real
  {
    if bags != [] {
      PresentStep(p, bags);
      MarketCaps(p, bags[0]);
      UnknownSoftBags(p, bags[1..]);
    }
  }

  /** What the market counts for crew seats that are sealed or unknown. */
  function PhantomLb(p: Profile, crew: seq<int>): real {
    if crew == [] then 0.0 else (if HardCap(p, crew[0]) > 0.0 then 0.0 else 130.0) + PhantomLb(p, crew[1..])
  }

  /** What the fill puts on crew seats above the 300 lb the market stops at. */
  function OverLb(p: Profile, crew: seq<int>): real {
    if crew == [] then 0.0
    else Max(0.0, Min(HardCap(p, crew[0]), FREIGHTER_CREW_STATION_SOFT_MAX_LB) - SEAT_OCCUPANT_SOFT_MAX_LB) + OverLb(p, crew[1..])
  }

  lemma CrewDiffers(p: Profile, crew: seq<int>)
    requires WellFormed(p)
    ensures CrewSpare(StickyOf(p), crew) - FreighterSpare(p, crew) == PhantomLb(p, crew) - OverLb(p, crew)
  {
    if crew != [] {
      MarketCaps(p, crew[0]);
      CrewDiffers(p, crew[1..]);
    }
  }

  // ---- whole pounds ----

  lemma WholeSoft(p: Profile, i: int, soft: real)
    requires PlanReadyStations(p) && Whole(soft) && soft >= 0.0
    ensures Whole(SoftOf(StickyOf(p), i, soft))
  {
    MarketCaps(p, i);
    LookupHit(p, i);
    assert Whole(0.0);
    WholeMin(HardCap(p, i), soft);
  }

  ghost predicate PlanReadyStations(p: Profile) {
    WellFormed(p) && forall s <- p :: Whole(s.maxLoad)
  }

  lemma WholeSoftRoom(p: Profile, ids: seq<int>, soft: real)
    requires PlanReadyStations(p) && Whole(soft) && soft >= 0.0
    ensures Whole(SoftRoom(StickyOf(p), ids, soft))
  {
    assert Whole(0.0);
    if ids != [] {
      WholeSoft(p, ids[0], soft);
      WholeSoftRoom(p, ids[1..], soft);
      WholeSum(0.0, SoftRoom(StickyOf(p), ids[1..], soft));
      WholeSum(SoftOf(StickyOf(p), ids[0], soft), SoftRoom(StickyOf(p), ids[1..], soft));
    }
  }

  lemma WholeCrewSpare(p: Profile, crew: seq<int>)
    requires PlanReadyStations(p)
    ensures Whole(CrewSpare(StickyOf(p), crew))
  {
    assert Whole(0.0);
    WholeConstants();
    if crew != [] {
      var seat := SoftOf(StickyOf(p), crew[0], SEAT_OCCUPANT_SOFT_MAX_LB);
      WholeSoft(p, crew[0], SEAT_OCCUPANT_SOFT_MAX_LB);
      WholeCrewSpare(p, crew[1..]);
      WholeSum(seat, -FREIGHTER_PILOT_LB);
      WholeSum(Max(0.0, seat - FREIGHTER_PILOT_LB), CrewSpare(StickyOf(p), crew[1..]));
    }
  }

  lemma WholeBags(p: Profile, ids: seq<int>)
    requires PlanReadyStations(p)
    ensures Whole(BagTotal(StickyOf(p), ids))
  {
    assert Whole(0.0) && Whole(500.0);
    if ids != [] {
      MarketCaps(p, ids[0]);
      LookupHit(p, ids[0]);
      WholeBags(p, ids[1..]);
      WholeSum(MarketBagCap(StickyOf(p), ids[0]), BagTotal(StickyOf(p), ids[1..]));
    }
  }

  /** With whole limits the ceiling needs no rounding. */
  lemma WholeCeiling(p: Profile, r: Roles)
    requires PlanReadyStations(p)
    ensures CeilingLb(StickyOf(p), r) == Unrounded(StickyOf(p), r)
  {
    var s := StickyOf(p);
    WholeConstants();
    WholeCrewSpare(p, r.crew);
    WholeSoftRoom(p, r.pax, SEAT_OCCUPANT_SOFT_MAX_LB);
    WholeSoftRoom(p, r.bags, GA_BAGGAGE_SOFT_MAX_LB);
    WholeSum(CrewSpare(s, r.crew), SoftRoom(s, r.pax, SEAT_OCCUPANT_SOFT_MAX_LB));
    WholeSum(CrewSpare(s, r.crew) + SoftRoom(s, r.pax, SEAT_OCCUPANT_SOFT_MAX_LB), SoftRoom(s, r.bags, GA_BAGGAGE_SOFT_MAX_LB));
    WholeBags(p, r.bags);
    WholeBags(p, NotCrew(s, r.crew));
    RoundWhole(Unrounded(s, r));
  }

  // ---- the whole comparison ----

  /** When ceiling and capacity are equal. With a known passenger seat, all role stations must be usable. With
      listed passengers that are all unknown, the market still counts a GA cabin and the fill a freighter.
      Without listed passengers the market counts the baggage, or else all loose stations. */
  ghost predicate Agrees(p: Profile, r: Roles) {
    var c := CabinOf(p, r);
    if c.pax != [] then Usable(p, r.crew) && Usable(p, r.pax) && Usable(p, r.bags)
    else if r.pax != [] && c.bags == [] then
      PhantomLb(p, r.crew) + 300.0 * |r.pax| as real + 50.0 * |r.bags| as real == OverLb(p, r.crew)
    else if r.pax != [] then
      CrewSpare(StickyOf(p), r.crew) + 300.0 * |r.pax| as real + SoftRoom(StickyOf(p), r.bags, GA_BAGGAGE_SOFT_MAX_LB)
      == BagHardLb(p, r.bags)
    else if c.bags != [] then CargoCeiling.Holds(p, r.bags)
    else if r.bags != [] then 500.0 * |r.bags| as real == FreighterSpare(p, r.crew)
    else LooseLb(p, r.crew) == FreighterSpare(p, r.crew)
  }

  /** For every role map, the ceiling equals the capacity the fill uses exactly when the roles agree. */
  lemma CeilingAgreesIff(p: Profile, r: Roles, live: Load)
    requires PlanReady(p, CabinOf(p, r))
    ensures CeilingLb(StickyOf(p), r) == FillCapacityLb(p, r, Seeds(p, CabinOf(p, r), live)) <==> Agrees(p, r)
  {
    var c := CabinOf(p, r);
    WholeCeiling(p, r);
    if c.pax != [] {
      GaCeilingAgreesIff(p, r, live);
    } else {
      FreighterFill(p, r, live);
      FreighterCounts(p, r);
      CrewDiffers(p, r.crew);
      if c.bags == [] {
        UnknownSoftBags(p, r.bags);
      }
      if r.pax == [] && c.bags != [] {
        FreighterCeilingAgreesIff(p, r, live);
      }
    }
  }

  lemma FreighterCounts(p: Profile, r: Roles)
    requires WellFormed(p) && CabinOf(p, r).pax == []
    ensures r.pax != [] ==>
              Unrounded(StickyOf(p), r) == CrewSpare(StickyOf(p), r.crew) + 300.0 * |r.pax| as real
                                            + SoftRoom(StickyOf(p), r.bags, GA_BAGGAGE_SOFT_MAX_LB)
    ensures r.pax == [] && r.bags != [] && CabinOf(p, r).bags == [] ==> Unrounded(StickyOf(p), r) == 500.0 * |r.bags| as real
    ensures r.pax == [] && r.bags == [] ==> Unrounded(StickyOf(p), r) == LooseLb(p, r.crew)
  {
    UnknownPax(p, r.pax);
    if CabinOf(p, r).bags == [] {
      UnknownBags(p, r.bags);
    }
    LooseTotal(p, r.crew, 0);
    assert p[0..] == p;
  }

  // ---- inputs ----

  /** One station and no passenger seat the profile knows. */
  ghost predicate OneCrewSeat(p: Profile, r: Roles, lb: real, pax: seq<int>) {
    p == [Station(1, lb, None, None, false)] && r == Roles([1], pax, [], [])
  }

  lemma OneSeat(p: Profile, r: Roles, lb: real, pax: seq<int>)
    requires OneCrewSeat(p, r, lb, pax) && Whole(lb) && lb >= 0.0 && Present(p, pax) == []
    ensures PlanReady(p, CabinOf(p, r)) && CabinOf(p, r) == Roles([1], [], [], []) && HardCap(p, 1) == lb
    ensures FreighterSpare(p, r.crew) == Max(0.0, Min(lb, 750.0) - 170.0)
  {
    assert [1][1..] == [];
    assert Present(p, [1]) == [1] && Present(p, []) == [];
    assert FreighterSpare(p, []) == 0.0;
  }

  /** A crew seat alone: the market offers nothing, the fill would take 130 lb. */
  lemma CrewAloneDisagrees(p: Profile, r: Roles, live: Load)
    requires OneCrewSeat(p, r, 300.0, [])
    ensures PlanReady(p, CabinOf(p, r))
    ensures CeilingLb(StickyOf(p), r) == 0.0 && FillCapacityLb(p, r, Seeds(p, CabinOf(p, r), live)) == 130.0
  {
    assert Whole(300.0);
    OneSeat(p, r, 300.0, []);
    FreighterFill(p, r, live);
    WholeCeiling(p, r);
    FreighterCounts(p, r);
    assert p[1..] == [];
    assert LooseLb(p, r.crew) == 0.0;
  }

  /** A crew seat of 600 lb and a passenger seat the profile does not have: both sides say 430 lb, although a
      role station is unknown. */
  lemma UnknownPaxAgrees(p: Profile, r: Roles, live: Load)
    requires OneCrewSeat(p, r, 600.0, [9])
    ensures PlanReady(p, CabinOf(p, r))
    ensures CeilingLb(StickyOf(p), r) == 430.0 && FillCapacityLb(p, r, Seeds(p, CabinOf(p, r), live)) == 430.0
  {
    assert Whole(600.0);
    assert p[1..] == [] && [9][1..] == [];
    assert Lookup(p, 9) == Lookup(p[1..], 9) == None;
    assert Present(p, [9]) == Present(p, []) == [];
    OneSeat(p, r, 600.0, [9]);
    FreighterFill(p, r, live);
    CrewDiffers(p, r.crew);
    assert [1][1..] == [];
    assert PhantomLb(p, r.crew) == 0.0 && OverLb(p, r.crew) == 300.0 by {
      assert PhantomLb(p, []) == 0.0 && OverLb(p, []) == 0.0;
    }
    CeilingAgreesIff(p, r, live);
  }

  ghost predicate SealedPassenger(p: Profile, r: Roles) {
    && |p| == 2 && p[0] == Station(1, 300.0, None, None, false) && p[1] == Station(2, 0.0, None, None, false)
    && r == Roles([1], [2], [], [])
  }

  lemma SealedCabin(p: Profile, r: Roles)
    requires SealedPassenger(p, r)
    ensures CabinOf(p, r) == r && PlanReady(p, r) && HardCap(p, 1) == 300.0 && HardCap(p, 2) == 0.0
  {
    assert p[1..] == [p[1]];
    assert Lookup(p, 2) == Lookup(p[1..], 2) == Some(p[1]);
    assert [1][1..] == [] && [2][1..] == [];
    assert Present(p, []) == [] && Present(p, [1]) == [1] && Present(p, [2]) == [2];
    assert Whole(300.0) && Whole(0.0);
  }

  /** A sealed passenger seat beside a crew seat: the market offers 430 lb, the fill takes 130 lb. */
  lemma SealedSeatDisagrees(p: Profile, r: Roles, live: Load)
    requires SealedPassenger(p, r)
    ensures PlanReady(p, CabinOf(p, r))
    ensures CeilingLb(StickyOf(p), r) == 430.0 && FillCapacityLb(p, r, Seeds(p, CabinOf(p, r), live)) == 130.0
  {
    SealedCabin(p, r);
    WholeCeiling(p, r);
    SealedOffer(p, r);
    SealedFill(p, r, live);
  }

  lemma SealedOffer(p: Profile, r: Roles)
    requires SealedPassenger(p, r)
    ensures Unrounded(StickyOf(p), r) == 430.0
  {
    SealedCabin(p, r);
    MarketCaps(p, 1);
    MarketCaps(p, 2);
    assert [1][1..] == [] && [2][1..] == [];
    assert CrewSpare(StickyOf(p), []) == 0.0 && SoftRoom(StickyOf(p), [], SEAT_OCCUPANT_SOFT_MAX_LB) == 0.0;
  }

  lemma SealedFill(p: Profile, r: Roles, live: Load)
    requires SealedPassenger(p, r)
    ensures FillCapacityLb(p, r, Seeds(p, CabinOf(p, r), live)) == 130.0
  {
    SealedCabin(p, r);
    GaSplit(p, r, live);
    OneRoom(Seeds(p, r, live), SeatSoftMax(p, r), 1);
    OneRoom(Seeds(p, r, live), SeatSoftMax(p, r), 2);
  }

  lemma OneRoom(w: Load, cap: Load, i: int)
    ensures Room(w, cap, [i]) == Max(0.0, At(cap, i) - At(w, i)) && Sum(cap, [i]) == At(cap, i)
  {
    assert [i][1..] == [];
    assert Room(w, cap, []) == 0.0 && Sum(cap, []) == 0.0;
  }
}
