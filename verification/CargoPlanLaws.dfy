/** What the cargo distribution promises: mass to the pound, caps, and who is filled first. */
module {:induction false} CargoPlanLaws {
  import opened Options
  import opened LoadErrors
  import opened Weights
  import opened Stations
  import opened WaterFill
  import opened LateralRows
  import opened FillStage
  import opened CargoPlan

  /** Distinct stations with whole limits; role lists without repeats or overlaps. */
  ghost predicate PlanReady(p: Profile, c: Roles) {
    && WellFormed(p)
    && (forall s <- p :: Whole(s.maxLoad))
    && NoDup(c.crew + c.pax + c.bags)
    && (forall i <- c.crew + c.pax + c.bags :: Known(p, i) && i !in c.service)
  }

  // ---- lists ----

  lemma {:induction false} DedupeSame(s: seq<int>)
    requires NoDup(s)
    ensures Dedupe(s) == s
  {
    if s != [] {
      DedupeSame(s[..|s| - 1]);
      assert s == s[..|s| - 1] + [s[|s| - 1]];
    }
  }

  lemma NoDupAppend(a: seq<int>, b: seq<int>)
    requires NoDup(a + b)
    ensures NoDup(a) && NoDup(b) && forall i :: !(i in a && i in b)
  {
    var ab := a + b;
    forall j, k | 0 <= j < k < |b| ensures b[j] != b[k] {
      assert ab[|a| + j] == b[j] && ab[|a| + k] == b[k];
    }
    forall j, k | 0 <= j < k < |a| ensures a[j] != a[k] {
      assert ab[j] == a[j] && ab[k] == a[k];
    }
    forall j, k | 0 <= j < |a| && 0 <= k < |b| ensures a[j] != b[k] {
      assert ab[j] == a[j] && ab[|a| + k] == b[k];
    }
  }

  lemma ListsOf(p: Profile, c: Roles)
    requires PlanReady(p, c)
    ensures SeatsOf(c) == c.crew + c.pax && MovableOf(c) == c.crew + c.pax + c.bags
    ensures NoDup(SeatsOf(c)) && NoDup(c.bags) && NoDup(MovableOf(c))
    ensures forall i :: !(i in SeatsOf(c) && i in c.bags)
    ensures forall i :: !(i in c.crew && i in c.pax)
  {
    NoDupAppend(c.crew + c.pax, c.bags);
    NoDupAppend(c.crew, c.pax);
    DedupeSame(c.crew + c.pax);
    DedupeSame(c.crew + c.pax + c.bags);
  }

  // ---- seeds ----

  lemma {:induction false} SeedAt(p: Profile, c: Roles, live: Load, k: nat)
    requires k < |p| && forall j, l :: 0 <= j < l < |p| ==> p[j].index != p[l].index
    ensures At(Seeds(p, c, live), p[k].index) == StartLb(p[k], c, live)
    ensures p[k].index in Seeds(p, c, live)
  {
    if k < |p| - 1 {
      SeedAt(p[..|p| - 1], c, live, k);
    }
  }

  /** The seed of a known station. */
  lemma SeedOf(p: Profile, c: Roles, live: Load, i: int)
    requires WellFormed(p) && Known(p, i)
    ensures i in Indexes(p) && i in Seeds(p, c, live)
    ensures At(Seeds(p, c, live), i) == StartLb(Lookup(p, i).value, c, live)
    ensures HardCap(p, i) == Lookup(p, i).value.maxLoad
  {
    LookupHit(p, i);
    var k :| 0 <= k < |p| && p[k] == Lookup(p, i).value;
    assert Indexes(p)[k] == i;
    SeedAt(p, c, live, k);
  }

  /** Live mass kept by the seeding. */
  function PreservedLb(p: Profile, c: Roles, live: Load): real {
    if p == [] then 0.0
    else
      var s := p[|p| - 1];
      PreservedLb(p[..|p| - 1], c, live) + (if IsRole(c, s.index) then 0.0 else KeptLb(s, live))
  }

  /** The seeds add up to the crew floor plus the preserved mass. */
  lemma {:induction false} SeedSum(p: Profile, c: Roles, live: Load)
    requires forall j, l :: 0 <= j < l < |p| ==> p[j].index != p[l].index
    ensures Sum(Seeds(p, c, live), Indexes(p)) == CrewLb(p, c) + PreservedLb(p, c, live)
  {
    if p != [] {
      var n := |p| - 1;
      var rest := p[..n];
      var before, after := Seeds(rest, c, live), Seeds(p, c, live);
      SeedSum(rest, c, live);
      assert Indexes(p) == Indexes(rest) + [p[n].index];
      forall i <- Indexes(rest) ensures At(before, i) == At(after, i) {
        var k :| 0 <= k < n && Indexes(rest)[k] == i;
        assert p[k].index != p[n].index;
      }
      SumFrame(before, after, Indexes(rest));
      SumAppend(after, Indexes(rest), [p[n].index]);
      assert Sum(after, [p[n].index]) == StartLb(p[n], c, live);
    }
  }

  lemma IndexesNoDup(p: Profile)
    requires WellFormed(p)
    ensures NoDup(Indexes(p))
  {
  }

  // ---- the seat stage ----

  lemma SeatCap(p: Profile, c: Roles, i: int)
    requires PlanReady(p, c) && i in SeatsOf(c)
    ensures EffectiveCap(p, SeatSoftMax(p, c), i) == Min(HardCap(p, i), SeatSoftLb(c))
    ensures At(SeatSoftMax(p, c), i) == Min(HardCap(p, i), SeatSoftLb(c))
    ensures Whole(HardCap(p, i)) && HardCap(p, i) >= 0.0
  {
    ListsOf(p, c);
    assert i in c.crew + c.pax + c.bags;
    LookupHit(p, i);
  }

  lemma SeatSeed(p: Profile, c: Roles, live: Load, i: int)
    requires PlanReady(p, c) && i in SeatsOf(c)
    ensures var start := Seeds(p, c, live);
            && i in start && i in Indexes(p)
            && At(start, i) == (if i in c.crew then Min(FREIGHTER_PILOT_LB, HardCap(p, i)) else 0.0)
  {
    ListsOf(p, c);
    assert i in c.crew + c.pax + c.bags;
    SeedOf(p, c, live, i);
    LookupHit(p, i);
  }

  lemma WholeMin(a: real, b: real)
    requires Whole(a) && Whole(b)
    ensures Whole(Min(a, b))
  {
  }

  lemma WholeConstants()
    ensures Whole(0.0) && Whole(FREIGHTER_PILOT_LB) && Whole(SEAT_OCCUPANT_SOFT_MAX_LB)
    ensures Whole(FREIGHTER_CREW_STATION_SOFT_MAX_LB) && Whole(GA_BAGGAGE_SOFT_MAX_LB)
  {
    FloorIs(170.0, 170);
    FloorIs(300.0, 300);
    FloorIs(750.0, 750);
    FloorIs(50.0, 50);
  }

  lemma SeatSeedFits(p: Profile, c: Roles, live: Load, i: int)
    requires PlanReady(p, c) && i in SeatsOf(c)
    ensures var start := Seeds(p, c, live);
            && 0.0 <= At(start, i) <= EffectiveCap(p, SeatSoftMax(p, c), i)
            && Whole(At(start, i)) && Whole(EffectiveCap(p, SeatSoftMax(p, c), i))
            && At(start, i) <= FREIGHTER_PILOT_LB
  {
    SeatCap(p, c, i);
    SeatSeed(p, c, live, i);
    WholeConstants();
    WholeMin(HardCap(p, i), SeatSoftLb(c));
    WholeMin(FREIGHTER_PILOT_LB, HardCap(p, i));
  }

  lemma SeatsReady(p: Profile, c: Roles, live: Load)
    requires PlanReady(p, c)
    ensures var start := Seeds(p, c, live);
            && StageReady(start, p, SeatsOf(c), GaRetain(c, start), SeatSoftMax(p, c))
            && StageReady(start, p, SeatsOf(c), CrewRetain(c, start), SeatSoftMax(p, c))
  {
    var start := Seeds(p, c, live);
    ListsOf(p, c);
    forall i <- SeatsOf(c)
      ensures i in start && 0.0 <= start[i] <= EffectiveCap(p, SeatSoftMax(p, c), i)
      ensures Whole(At(start, i)) && Whole(At(Caps(p, SeatSoftMax(p, c), SeatsOf(c)), i))
      ensures Min(FREIGHTER_PILOT_LB, At(start, i)) <= start[i]
    {
      SeatSeed(p, c, live, i);
      SeatSeedFits(p, c, live, i);
      assert At(start, i) == start[i];
    }
  }

  lemma {:induction false} RoomCaps(w: Load, cap: Load, cap': Load, ids: seq<int>)
    requires forall i <- ids :: At(cap, i) == At(cap', i)
    ensures Room(w, cap, ids) == Room(w, cap', ids)
  {
    if ids != [] {
      RoomCaps(w, cap, cap', ids[1..]);
    }
  }

  lemma SeatRoomIs(p: Profile, c: Roles, start: Load)
    requires PlanReady(p, c)
    ensures SeatRoomLb(p, c, start) == Room(start, Caps(p, SeatSoftMax(p, c), SeatsOf(c)), SeatsOf(c))
  {
    forall i <- SeatsOf(c) ensures At(SeatSoftMax(p, c), i) == At(Caps(p, SeatSoftMax(p, c), SeatsOf(c)), i) {
      SeatCap(p, c, i);
    }
    RoomCaps(start, SeatSoftMax(p, c), Caps(p, SeatSoftMax(p, c), SeatsOf(c)), SeatsOf(c));
  }

  lemma {:induction false} GainIs(before: Load, after: Load, ids: seq<int>)
    requires forall i <- ids :: At(before, i) <= At(after, i)
    ensures Gain(before, after, ids) == Sum(after, ids) - Sum(before, ids)
  {
    if ids != [] {
      GainIs(before, after, ids[1..]);
    }
  }

  /** The seats take what they can and hand on the rest. */
  lemma SeatStage(p: Profile, c: Roles, live: Load, requested: real)
    requires PlanReady(p, c) && Ga(c) && Whole(requested)
    ensures var start := Seeds(p, c, live);
            var r := AfterSeats(p, c, start, requested);
            && r.0 == Staged(start, p, SeatsOf(c), requested, GaRetain(c, start), SeatSoftMax(p, c))
            && r.1 == Max(0.0, requested - Min(Max(0.0, requested), SeatRoomLb(p, c, start)))
  {
    var start := Seeds(p, c, live);
    var seats := SeatsOf(c);
    var filled := SeatFill(p, c, start, requested);
    ListsOf(p, c);
    SeatsReady(p, c, live);
    SeatRoomIs(p, c, start);
    forall i <- seats ensures At(start, i) <= At(filled, i) {
      StageFillBounds(start, p, seats, requested, GaRetain(c, start), SeatSoftMax(p, c), i);
    }
    GainIs(start, filled, seats);
    StageFillPlaces(start, p, seats, requested, GaRetain(c, start), SeatSoftMax(p, c), seats);
  }

  // ---- the baggage stage ----

  lemma BagCap(p: Profile, c: Roles, i: int)
    requires PlanReady(p, c) && i in c.bags
    ensures EffectiveCap(p, BagFillMax(p, c), i) == At(BagSoftMax(p, c), i)
    ensures Whole(At(BagSoftMax(p, c), i)) && At(BagSoftMax(p, c), i) >= 0.0
    ensures At(BagSoftMax(p, c), i) == if Ga(c) then Min(HardCap(p, i), GA_BAGGAGE_SOFT_MAX_LB) else HardCap(p, i)
  {
    assert i in c.crew + c.pax + c.bags;
    LookupHit(p, i);
    WholeConstants();
    WholeMin(HardCap(p, i), GA_BAGGAGE_SOFT_MAX_LB);
  }

  lemma BagSeed(p: Profile, c: Roles, live: Load, i: int)
    requires PlanReady(p, c) && i in c.bags
    ensures i in Seeds(p, c, live) && i in Indexes(p) && At(Seeds(p, c, live), i) == 0.0 && i !in SeatsOf(c)
  {
    ListsOf(p, c);
    assert i in c.crew + c.pax + c.bags;
    SeedOf(p, c, live, i);
    LookupHit(p, i);
  }

  /** Layouts the baggage stage can start from: the seeds, apart from the seats. */
  ghost predicate BagsUntouched(p: Profile, c: Roles, w: Load) {
    forall i <- c.bags :: i in w && w[i] == 0.0
  }

  lemma BagsReady(p: Profile, c: Roles, w: Load)
    requires PlanReady(p, c) && BagsUntouched(p, c, w)
    ensures StageReady(w, p, c.bags, Zeros(c.bags), BagFillMax(p, c))
    ensures Room(w, Caps(p, BagFillMax(p, c), c.bags), c.bags) == Sum(BagSoftMax(p, c), c.bags)
  {
    var caps := Caps(p, BagFillMax(p, c), c.bags);
    ListsOf(p, c);
    WholeConstants();
    forall i <- c.bags
      ensures At(caps, i) == At(BagSoftMax(p, c), i) && Whole(At(caps, i)) && At(caps, i) >= 0.0 && At(w, i) == 0.0
    {
      BagCap(p, c, i);
    }
    RoomIsSlack(w, caps, c.bags);
    SumFrame(caps, BagSoftMax(p, c), c.bags);
    ZeroSum(w, c.bags);
  }

  lemma {:induction false} ZeroSum(w: Load, ids: seq<int>)
    requires forall i <- ids :: At(w, i) == 0.0
    ensures Sum(w, ids) == 0.0
  {
    if ids != [] {
      ZeroSum(w, ids[1..]);
    }
  }

  // ---- the capacity ----

  lemma {:induction false} WholeTotal(w: Load, ids: seq<int>)
    requires WholeOn(w, ids)
    ensures Whole(Sum(w, ids))
  {
    WholeConstants();
    if ids != [] {
      assert Whole(At(w, ids[0]));
      WholeTotal(w, ids[1..]);
      WholeSum(At(w, ids[0]), Sum(w, ids[1..]));
    }
  }

  lemma {:induction false} SumNonNegative(w: Load, ids: seq<int>)
    requires forall i <- ids :: At(w, i) >= 0.0
    ensures Sum(w, ids) >= 0.0
  {
    if ids != [] {
      SumNonNegative(w, ids[1..]);
    }
  }

  lemma SeatRoomWhole(p: Profile, c: Roles, live: Load)
    requires PlanReady(p, c)
    ensures Whole(SeatRoomLb(p, c, Seeds(p, c, live))) && SeatRoomLb(p, c, Seeds(p, c, live)) >= 0.0
  {
    var start := Seeds(p, c, live);
    var caps := Caps(p, SeatSoftMax(p, c), SeatsOf(c));
    SeatsReady(p, c, live);
    SeatRoomIs(p, c, start);
    WholeRoom(start, caps, SeatsOf(c));
  }

  lemma WholeRoom(w: Load, caps: Load, ids: seq<int>)
    requires WholeOn(w, ids) && WholeOn(caps, ids) && forall i <- ids :: At(w, i) <= At(caps, i)
    ensures Whole(Room(w, caps, ids)) && Room(w, caps, ids) >= 0.0
  {
    RoomIsSlack(w, caps, ids);
    RoomSign(w, caps, ids);
    WholeTotal(caps, ids);
    WholeTotal(w, ids);
    WholeSum(0.0, Sum(w, ids)) by {
      assert Whole(0.0);
    }
    WholeSum(Sum(caps, ids), -Sum(w, ids));
  }

  lemma BagTotalWhole(p: Profile, c: Roles)
    requires PlanReady(p, c)
    ensures Whole(Sum(BagSoftMax(p, c), c.bags)) && Sum(BagSoftMax(p, c), c.bags) >= 0.0
  {
    forall i <- c.bags ensures Whole(At(BagSoftMax(p, c), i)) && At(BagSoftMax(p, c), i) >= 0.0 {
      BagCap(p, c, i);
    }
    WholeTotal(BagSoftMax(p, c), c.bags);
    SumNonNegative(BagSoftMax(p, c), c.bags);
  }

  /** The freighter capacity never passes what the baggage fill can hold: it leaves out
      stations whose index is not positive. */
  lemma {:induction false} BagHardBounds(p: Profile, bags: seq<int>, soft: Load)
    requires WellFormed(p)
    requires forall i <- Present(p, bags) :: At(soft, i) == HardCap(p, i)
    ensures 0.0 <= BagHardLb(p, bags) <= Sum(soft, Present(p, bags))
  {
    if bags != [] {
      LookupHit(p, bags[0]);
      assert bags == [bags[0]] + bags[1..];
      var rest := Present(p, bags[1..]);
      if Known(p, bags[0]) {
        assert Present(p, bags) == [bags[0]] + rest;
        assert Present(p, bags)[0] in Present(p, bags);
      } else {
        assert Present(p, bags) == rest;
      }
      BagHardBounds(p, bags[1..], soft);
    }
  }

  lemma {:induction false} BagHardWhole(p: Profile, bags: seq<int>)
    requires forall s <- p :: Whole(s.maxLoad)
    ensures Whole(BagHardLb(p, bags))
  {
    WholeConstants();
    if bags != [] {
      LookupHit(p, bags[0]);
      BagHardWhole(p, bags[1..]);
      WholeSum(HardCap(p, bags[0]), BagHardLb(p, bags[1..]));
      WholeSum(0.0, BagHardLb(p, bags[1..]));
    }
  }

  lemma CapacityFacts(p: Profile, r: Roles, live: Load)
    requires PlanReady(p, CabinOf(p, r))
    ensures var c := CabinOf(p, r);
            var f := FillCapacityLb(p, r, Seeds(p, c, live));
            && Whole(f) && f >= 0.0
            && (!Ga(c) && c.bags != [] ==> f <= Sum(BagSoftMax(p, c), c.bags))
  {
    var c := CabinOf(p, r);
    SeatRoomWhole(p, c, live);
    BagTotalWhole(p, c);
    WholeSum(SeatRoomLb(p, c, Seeds(p, c, live)), Sum(BagSoftMax(p, c), c.bags));
    if !Ga(c) && c.bags != [] {
      forall i <- c.bags ensures At(BagSoftMax(p, c), i) == HardCap(p, i) {
        BagCap(p, c, i);
      }
      BagHardBounds(p, r.bags, BagSoftMax(p, c));
      BagHardWhole(p, r.bags);
    }
  }

  /** The request: the rounded cargo or the capacity, whichever is less. */
  lemma RequestIs(cargoLb: real, f: real)
    requires Whole(f)
    ensures RequestedLb(cargoLb, f) == Min(RoundLb(cargoLb), f) && Whole(RequestedLb(cargoLb, f))
  {
    RoundWhole(cargoLb);
    RoundWhole(f);
  }

  // ---- the theorems ----

  lemma AfterSeatsBags(p: Profile, c: Roles, live: Load, requested: real)
    requires PlanReady(p, c) && Whole(requested)
    ensures var w := AfterSeats(p, c, Seeds(p, c, live), requested).0;
            w.Keys == Seeds(p, c, live).Keys && BagsUntouched(p, c, w)
  {
    var start := Seeds(p, c, live);
    var w := AfterSeats(p, c, start, requested).0;
    ListsOf(p, c);
    if Ga(c) {
      SeatStage(p, c, live, requested);
      SeatsReady(p, c, live);
      StagePlaces(start, p, SeatsOf(c), requested, GaRetain(c, start), SeatSoftMax(p, c), SeatsOf(c));
    }
    forall i <- c.bags ensures i in w && w[i] == 0.0 {
      BagSeed(p, c, live, i);
      if Ga(c) {
        StageBounds(start, p, SeatsOf(c), requested, GaRetain(c, start), SeatSoftMax(p, c), i);
      }
      assert w[i] == At(w, i);
    }
  }

  lemma SeatsIndexed(p: Profile, c: Roles, live: Load)
    requires PlanReady(p, c)
    ensures NoDup(Indexes(p)) && Within(SeatsOf(c), Indexes(p)) && Within(c.bags, Indexes(p))
  {
    IndexesNoDup(p);
    forall i <- SeatsOf(c) ensures i in Indexes(p) { SeatSeed(p, c, live, i); }
    forall i <- c.bags ensures i in Indexes(p) { BagSeed(p, c, live, i); }
  }

  lemma SeatsPlace(p: Profile, c: Roles, live: Load, requested: real)
    requires PlanReady(p, c) && Ga(c) && Whole(requested)
    ensures var start := Seeds(p, c, live);
            var r := AfterSeats(p, c, start, requested);
            Sum(r.0, Indexes(p)) == Sum(start, Indexes(p)) + Min(Max(0.0, requested), SeatRoomLb(p, c, start))
  {
    var start := Seeds(p, c, live);
    SeatsIndexed(p, c, live);
    SeatsReady(p, c, live);
    SeatRoomIs(p, c, start);
    SeatStage(p, c, live, requested);
    StagePlaces(start, p, SeatsOf(c), requested, GaRetain(c, start), SeatSoftMax(p, c), Indexes(p));
  }

  lemma BagsPlace(p: Profile, c: Roles, live: Load, w: Load, remaining: real)
    requires PlanReady(p, c) && BagsUntouched(p, c, w) && Whole(remaining)
    requires 0.0 < remaining <= Sum(BagSoftMax(p, c), c.bags)
    ensures Sum(AfterBags(p, c, Seeds(p, c, live), w, remaining), Indexes(p)) == Sum(w, Indexes(p)) + remaining
  {
    SeatsIndexed(p, c, live);
    BagsReady(p, c, w);
    StagePlaces(w, p, c.bags, remaining, Zeros(c.bags), BagFillMax(p, c), Indexes(p));
  }

  lemma SeatStageWhole(p: Profile, c: Roles, live: Load, requested: real)
    requires PlanReady(p, c) && Whole(requested)
    ensures Whole(AfterSeats(p, c, Seeds(p, c, live), requested).1)
  {
    if Ga(c) {
      var v, rest, room := SeatOutcome(p, c, live, requested);
      RestIsWhole(requested, room, rest);
    }
  }

  lemma RestIsWhole(requested: real, room: real, rest: real)
    requires Whole(requested) && Whole(room) && rest == Max(0.0, requested - Min(Max(0.0, requested), room))
    ensures Whole(rest)
  {
    assert Whole(0.0);
    WholeSum(0.0, room);
    WholeSum(requested, -room);
  }

  lemma RestPlaces(p: Profile, c: Roles, live: Load, w: Load, remaining: real)
    requires PlanReady(p, c) && BagsUntouched(p, c, w) && Whole(remaining)
    requires 0.0 <= remaining <= Sum(BagSoftMax(p, c), c.bags)
    ensures Sum(AfterBags(p, c, Seeds(p, c, live), w, remaining), Indexes(p)) == Sum(w, Indexes(p)) + remaining
  {
    if remaining > 0.0 {
      BagsPlace(p, c, live, w, remaining);
    }
  }

  lemma GaPlaces(p: Profile, c: Roles, live: Load, requested: real)
    requires PlanReady(p, c) && Ga(c) && Whole(requested)
    requires requested <= SeatRoomLb(p, c, Seeds(p, c, live)) + Sum(BagSoftMax(p, c), c.bags)
    ensures var start := Seeds(p, c, live);
            Sum(FinalLayout(p, c, start, requested), Indexes(p)) == Sum(start, Indexes(p)) + Max(0.0, requested)
  {
    var start := Seeds(p, c, live);
    var seats := AfterSeats(p, c, start, requested);
    var room := SeatRoomLb(p, c, start);
    assert seats.1 == Max(0.0, requested - Min(Max(0.0, requested), room)) by {
      SeatStage(p, c, live, requested);
    }
    assert room >= 0.0 by { SeatRoomWhole(p, c, live); }
    assert Sum(BagSoftMax(p, c), c.bags) >= 0.0 by { BagTotalWhole(p, c); }
    assert Sum(seats.0, Indexes(p)) == Sum(start, Indexes(p)) + Min(Max(0.0, requested), room) by {
      SeatsPlace(p, c, live, requested);
    }
    assert Sum(AfterBags(p, c, start, seats.0, seats.1), Indexes(p)) == Sum(seats.0, Indexes(p)) + seats.1 by {
      SeatStageWhole(p, c, live, requested);
      AfterSeatsBags(p, c, live, requested);
      RestPlaces(p, c, live, seats.0, seats.1);
    }
  }

  lemma FreighterPlaces(p: Profile, c: Roles, live: Load, requested: real)
    requires PlanReady(p, c) && !Ga(c) && !NoStations(c) && Whole(requested)
    requires requested <= if c.bags != [] then Sum(BagSoftMax(p, c), c.bags) else SeatRoomLb(p, c, Seeds(p, c, live))
    ensures var start := Seeds(p, c, live);
            Sum(FinalLayout(p, c, start, requested), Indexes(p)) == Sum(start, Indexes(p)) + Max(0.0, requested)
  {
    var start := Seeds(p, c, live);
    SeatsIndexed(p, c, live);
    if requested > 0.0 {
      if c.bags != [] {
        AfterSeatsBags(p, c, live, requested);
        BagsPlace(p, c, live, start, requested);
      } else {
        ListsOf(p, c);
        SeatsReady(p, c, live);
        SeatRoomIs(p, c, start);
        StageFillPlaces(start, p, SeatsOf(c), requested, CrewRetain(c, start), SeatSoftMax(p, c), Indexes(p));
      }
    }
  }

  /** Cargo that counts: the rounded request up to the fill capacity. */
  function LoadedLb(cargoLb: real, p: Profile, r: Roles, live: Load): real {
    Max(0.0, Min(RoundLb(cargoLb), FillCapacityLb(p, r, Seeds(p, CabinOf(p, r), live))))
  }

  /** Conservation: the stations carry the crew floor, the preserved live weights and exactly
      the cargo that was asked for, cut at the fill capacity. */
  lemma CargoIsConserved(cargoLb: real, p: Profile, r: Roles, live: Load)
    requires PlanReady(p, CabinOf(p, r)) && !NoStations(CabinOf(p, r))
    ensures var plan := Distributed(cargoLb, p, r, live);
            && plan.Ok?
            && plan.value.total == Sum(plan.value.stations, Indexes(p))
            && plan.value.total
               == plan.value.crewLb + PreservedLb(p, CabinOf(p, r), live) + LoadedLb(cargoLb, p, r, live)
  {
    var c := CabinOf(p, r);
    var start := Seeds(p, c, live);
    CapacityFacts(p, r, live);
    RequestIs(cargoLb, FillCapacityLb(p, r, start));
    SeedSum(p, c, live);
    if Ga(c) {
      GaPlaces(p, c, live, RequestedLb(cargoLb, FillCapacityLb(p, r, start)));
    } else {
      FreighterPlaces(p, c, live, RequestedLb(cargoLb, FillCapacityLb(p, r, start)));
    }
  }

  /** No station ends above its limit: the soft limit on seats and GA baggage, the structural
      one on freighter baggage. Every other station keeps its seed. */
  lemma CargoRespectsCaps(cargoLb: real, p: Profile, r: Roles, live: Load, i: int)
    requires PlanReady(p, CabinOf(p, r)) && !NoStations(CabinOf(p, r))
    ensures var c := CabinOf(p, r);
            var w := Distributed(cargoLb, p, r, live).value.stations;
            && (i in SeatsOf(c) ==> 0.0 <= At(w, i) <= Min(HardCap(p, i), SeatSoftLb(c)))
            && (i in c.bags ==> 0.0 <= At(w, i) <= At(BagSoftMax(p, c), i))
            && (i !in SeatsOf(c) && i !in c.bags ==> At(w, i) == At(Seeds(p, c, live), i))
  {
    var c := CabinOf(p, r);
    var start := Seeds(p, c, live);
    var requested := RequestedLb(cargoLb, FillCapacityLb(p, r, start));
    CapacityFacts(p, r, live);
    RequestIs(cargoLb, FillCapacityLb(p, r, start));
    var seats := AfterSeats(p, c, start, requested);
    AfterSeatsBounds(p, c, live, requested, i);
    AfterBagsBounds(p, c, live, requested, i);
  }

  /** The stations reported as preserved: service stations, and stations without a role that have a live
      reading. */
  lemma PreservedHas(p: Profile, c: Roles, live: Load, i: int)
    ensures i in Preserved(p, c, live)
            <==> (exists s :: s in p && s.index == i) && i !in c.crew && i !in c.pax
                 && (i in c.service || (i !in c.bags && i in live))
  {
    if p != [] {
      var n := |p| - 1;
      PreservedHas(p[..n], c, live, i);
      assert p == p[..n] + [p[n]];
    }
  }

  /** Live weight kept on a station without a role: what is there, within the limit of the station and in whole
      pounds. */
  function KeptLive(s: Station, live: Load): real {
    if s.index !in live then 0.0
    else if live[s.index] < 0.0 then RoundLb(Min(0.0, s.maxLoad))
    else RoundLb(if live[s.index] <= s.maxLoad then live[s.index] else s.maxLoad)
  }

  /** The limits in pounds: 300 lb on every seat of a cabin with passengers and 50 lb on its baggage stations,
      750 lb on the crew seats of a freighter, and the structural limit everywhere. Service stations, and
      stations without a role, keep what was live. */
  lemma StationLimits(cargoLb: real, p: Profile, r: Roles, live: Load, s: Station)
    requires PlanReady(p, CabinOf(p, r)) && !NoStations(CabinOf(p, r)) && s in p
    ensures var c := CabinOf(p, r);
            var lb := At(Distributed(cargoLb, p, r, live).value.stations, s.index);
            if s.index in c.crew || s.index in c.pax then
              0.0 <= lb <= s.maxLoad && lb <= (if c.pax != [] then 300.0 else 750.0)
            else if s.index in c.bags then 0.0 <= lb <= s.maxLoad && (c.pax != [] ==> lb <= 50.0)
            else lb == KeptLive(s, live)
  {
    var c := CabinOf(p, r);
    var lb := At(Distributed(cargoLb, p, r, live).value.stations, s.index);
    assert EndsWithin(p, c, live, s.index, lb) by {
      CargoRespectsCaps(cargoLb, p, r, live, s.index);
    }
    LimitsOf(p, c, live, s, lb);
  }

  /** Where a station can end, by its role. */
  ghost predicate EndsWithin(p: Profile, c: Roles, live: Load, i: int, lb: real) {
    && (i in SeatsOf(c) ==> 0.0 <= lb <= Min(HardCap(p, i), SeatSoftLb(c)))
    && (i in c.bags ==> 0.0 <= lb <= At(BagSoftMax(p, c), i))
    && (i !in SeatsOf(c) && i !in c.bags ==> lb == At(Seeds(p, c, live), i))
  }

  lemma LimitsOf(p: Profile, c: Roles, live: Load, s: Station, lb: real)
    requires PlanReady(p, c) && s in p && EndsWithin(p, c, live, s.index, lb)
    ensures if s.index in c.crew || s.index in c.pax then
              0.0 <= lb <= s.maxLoad && lb <= (if c.pax != [] then 300.0 else 750.0)
            else if s.index in c.bags then 0.0 <= lb <= s.maxLoad && (c.pax != [] ==> lb <= 50.0)
            else lb == KeptLive(s, live)
  {
    var k :| 0 <= k < |p| && p[k] == s;
    LookupSelf(p, k);
    ListsOf(p, c);
    SeedOf(p, c, live, s.index);
    if s.index in c.bags {
      BagCap(p, c, s.index);
    }
  }

  /** Where the seat stage leaves each station. */
  lemma AfterSeatsBounds(p: Profile, c: Roles, live: Load, requested: real, i: int)
    requires PlanReady(p, c) && Whole(requested)
    ensures var start := Seeds(p, c, live);
            var w := AfterSeats(p, c, start, requested).0;
            && (i !in SeatsOf(c) || !Ga(c) ==> At(w, i) == At(start, i))
            && (i in SeatsOf(c) ==> 0.0 <= At(w, i) <= Min(HardCap(p, i), SeatSoftLb(c)))
  {
    var start := Seeds(p, c, live);
    if i in SeatsOf(c) {
      SeatSeedFits(p, c, live, i);
      SeatCap(p, c, i);
    }
    if Ga(c) {
      SeatsReady(p, c, live);
      SeatStage(p, c, live, requested);
      StageBounds(start, p, SeatsOf(c), requested, GaRetain(c, start), SeatSoftMax(p, c), i);
    }
  }

  lemma BagFillBounds(p: Profile, c: Roles, w: Load, remaining: real, i: int)
    requires PlanReady(p, c) && BagsUntouched(p, c, w) && Whole(remaining)
    ensures var v := Staged(w, p, c.bags, remaining, Zeros(c.bags), BagFillMax(p, c));
            && (i in c.bags ==> 0.0 <= At(v, i) <= At(BagSoftMax(p, c), i))
            && (i !in c.bags ==> At(v, i) == At(w, i))
  {
    BagsReady(p, c, w);
    StageBounds(w, p, c.bags, remaining, Zeros(c.bags), BagFillMax(p, c), i);
    if i in c.bags {
      BagCap(p, c, i);
    }
  }

  lemma SeatsOnlyBounds(p: Profile, c: Roles, live: Load, requested: real, i: int)
    requires PlanReady(p, c) && Whole(requested)
    ensures var start := Seeds(p, c, live);
            var v := Equalized(start, p, SeatsOf(c), requested, CrewRetain(c, start), SeatSoftMax(p, c));
            && (i in SeatsOf(c) ==> 0.0 <= At(v, i) <= Min(HardCap(p, i), SeatSoftLb(c)))
            && (i !in SeatsOf(c) ==> At(v, i) == At(start, i))
  {
    var start := Seeds(p, c, live);
    SeatsReady(p, c, live);
    StageFillBounds(start, p, SeatsOf(c), requested, CrewRetain(c, start), SeatSoftMax(p, c), i);
    if i in SeatsOf(c) {
      SeatCap(p, c, i);
      SeatSeedFits(p, c, live, i);
    }
  }

  /** Nothing is left for the last resort when a GA cabin has no baggage. */
  lemma NoRestWithoutBags(p: Profile, c: Roles, live: Load, requested: real)
    requires PlanReady(p, c) && Ga(c) && c.bags == [] && Whole(requested)
    requires requested <= SeatRoomLb(p, c, Seeds(p, c, live)) + Sum(BagSoftMax(p, c), c.bags)
    ensures AfterSeats(p, c, Seeds(p, c, live), requested).1 == 0.0
  {
    var v, rest, room := SeatOutcome(p, c, live, requested);
    assert requested <= room;
  }

  lemma AfterBagsBounds(p: Profile, c: Roles, live: Load, requested: real, i: int)
    requires PlanReady(p, c) && Whole(requested)
    requires Ga(c) ==> requested <= SeatRoomLb(p, c, Seeds(p, c, live)) + Sum(BagSoftMax(p, c), c.bags)
    ensures var start := Seeds(p, c, live);
            var seats := AfterSeats(p, c, start, requested);
            var w := AfterBags(p, c, start, seats.0, seats.1);
            && (i in c.bags ==> 0.0 <= At(w, i) <= At(BagSoftMax(p, c), i))
            && (i !in c.bags && i !in SeatsOf(c) ==> At(w, i) == At(seats.0, i))
            && (i in SeatsOf(c) && (Ga(c) || c.bags != []) ==> At(w, i) == At(seats.0, i))
            && (i in SeatsOf(c) ==> 0.0 <= At(w, i) <= Min(HardCap(p, i), SeatSoftLb(c)))
  {
    var start := Seeds(p, c, live);
    var seats := AfterSeats(p, c, start, requested);
    ListsOf(p, c);
    AfterSeatsBounds(p, c, live, requested, i);
    AfterSeatsBags(p, c, live, requested);
    SeatStageWhole(p, c, live, requested);
    if i in c.bags {
      BagCap(p, c, i);
      assert At(seats.0, i) == 0.0;
    }
    if c.bags != [] {
      BagFillBounds(p, c, seats.0, seats.1, i);
    } else if Ga(c) {
      NoRestWithoutBags(p, c, live, requested);
    } else {
      SeatsOnlyBounds(p, c, live, requested, i);
    }
  }

  /** Priority in a GA cabin: baggage is used only once every seat is at its soft limit. */
  lemma GaSeatsComeFirst(cargoLb: real, p: Profile, r: Roles, live: Load, bag: int, seat: int)
    requires PlanReady(p, CabinOf(p, r)) && Ga(CabinOf(p, r))
    requires bag in CabinOf(p, r).bags && seat in SeatsOf(CabinOf(p, r))
    requires At(Distributed(cargoLb, p, r, live).value.stations, bag) > 0.0
    ensures At(Distributed(cargoLb, p, r, live).value.stations, seat)
         == Min(HardCap(p, seat), 300.0)
  {
    var c := CabinOf(p, r);
    var start := Seeds(p, c, live);
    var requested := RequestedLb(cargoLb, FillCapacityLb(p, r, start));
    CapacityFacts(p, r, live);
    RequestIs(cargoLb, FillCapacityLb(p, r, start));
    AfterBagsBounds(p, c, live, requested, seat);
    AfterSeatsBags(p, c, live, requested);
    SeatStage(p, c, live, requested);
    SeatRoomWhole(p, c, live);
    GaSeatsFull(p, c, live, requested, seat);
  }

  lemma GaSeatsFull(p: Profile, c: Roles, live: Load, requested: real, seat: int)
    requires PlanReady(p, c) && Ga(c) && Whole(requested) && seat in SeatsOf(c)
    ensures var start := Seeds(p, c, live);
            var r := AfterSeats(p, c, start, requested);
            r.1 > 0.0 ==> At(r.0, seat) == Min(HardCap(p, seat), SeatSoftLb(c))
  {
    var v, rest, room := SeatOutcome(p, c, live, requested);
    if rest > 0.0 {
      SeatsFilledUp(p, c, live, requested, room, v, seat);
    }
  }

  /** The seat stage, taken apart. */
  lemma SeatOutcome(p: Profile, c: Roles, live: Load, requested: real) returns (v: Load, rest: real, room: real)
    requires PlanReady(p, c) && Ga(c) && Whole(requested)
    ensures AfterSeats(p, c, Seeds(p, c, live), requested) == (v, rest) && room == SeatRoomLb(p, c, Seeds(p, c, live))
    ensures v == Staged(Seeds(p, c, live), p, SeatsOf(c), requested, GaRetain(c, Seeds(p, c, live)), SeatSoftMax(p, c))
    ensures rest == Max(0.0, requested - Min(Max(0.0, requested), room)) && room >= 0.0 && Whole(room)
  {
    var r := AfterSeats(p, c, Seeds(p, c, live), requested);
    v, rest, room := r.0, r.1, SeatRoomLb(p, c, Seeds(p, c, live));
    SeatRoomWhole(p, c, live);
    assert v == Staged(Seeds(p, c, live), p, SeatsOf(c), requested, GaRetain(c, Seeds(p, c, live)), SeatSoftMax(p, c)) by {
      SeatStage(p, c, live, requested);
    }
    assert rest == Max(0.0, requested - Min(Max(0.0, requested), room)) by {
      SeatStage(p, c, live, requested);
    }
  }

  lemma SeatsFilledUp(p: Profile, c: Roles, live: Load, requested: real, room: real, v: Load, seat: int)
    requires PlanReady(p, c) && Ga(c) && Whole(requested) && seat in SeatsOf(c)
    requires room == SeatRoomLb(p, c, Seeds(p, c, live)) && room <= requested
    requires v == Staged(Seeds(p, c, live), p, SeatsOf(c), requested, GaRetain(c, Seeds(p, c, live)), SeatSoftMax(p, c))
    ensures At(v, seat) == Min(HardCap(p, seat), SeatSoftLb(c))
  {
    var start := Seeds(p, c, live);
    SeatsReady(p, c, live);
    SeatRoomIs(p, c, start);
    SeatCap(p, c, seat);
    StageFull(start, p, SeatsOf(c), requested, GaRetain(c, start), SeatSoftMax(p, c), seat);
  }

  /** Priority in a freighter: with baggage stations mapped, the crew stays at its floor. */
  lemma FreighterCrewStays(cargoLb: real, p: Profile, r: Roles, live: Load, i: int)
    requires PlanReady(p, CabinOf(p, r)) && !Ga(CabinOf(p, r)) && CabinOf(p, r).bags != []
    requires i in CabinOf(p, r).crew
    ensures At(Distributed(cargoLb, p, r, live).value.stations, i) == Min(FREIGHTER_PILOT_LB, HardCap(p, i))
  {
    var c := CabinOf(p, r);
    var start := Seeds(p, c, live);
    var requested := RequestedLb(cargoLb, FillCapacityLb(p, r, start));
    ListsOf(p, c);
    CapacityFacts(p, r, live);
    RequestIs(cargoLb, FillCapacityLb(p, r, start));
    AfterBagsBounds(p, c, live, requested, i);
    SeatSeed(p, c, live, i);
  }
}
