/** What `cargoPlacedLb` of a payload plan says: it counts what stations gained, so it is the
    loaded cargo exactly when no movable station ends below its start. */
module {:induction false} CargoReport {
  import opened Options
  import opened Weights
  import opened Stations
  import opened WaterFill
  import opened LateralRows
  import opened RowBalance
  import opened FillStage
  import opened CargoPlan
  import opened CargoPlanLaws
  import Sorting

  /** Pounds lost by the stations that end lower. */
  function Loss(before: Load, after: Load, ids: seq<int>): real {
    Gain(after, before, ids)
  }

  lemma GainAndLoss(before: Load, after: Load, ids: seq<int>)
    ensures Gain(before, after, ids) == Sum(after, ids) - Sum(before, ids) + Loss(before, after, ids)
    ensures Loss(before, after, ids) >= 0.0
    ensures Loss(before, after, ids) == 0.0 <==> forall i <- ids :: At(before, i) <= At(after, i)
    decreases ids
  {
    if ids != [] {
      GainAndLoss(before, after, ids[1..]);
      assert ids == [ids[0]] + ids[1..];
    }
  }

  /** Loads that agree outside a list differ in total by what they differ on the list. */
  lemma TotalsDiffer(w: Load, v: Load, ids: seq<int>, all: seq<int>)
    requires NoDup(ids) && NoDup(all) && Within(ids, all)
    requires forall i <- all :: i !in ids ==> At(v, i) == At(w, i)
    ensures Sum(v, all) - Sum(w, all) == Sum(v, ids) - Sum(w, ids)
    decreases ids
  {
    if ids == [] {
      SumFrame(w, v, all);
    } else {
      var u := w[ids[0] := At(v, ids[0])];
      assert ids[0] in all && ids[0] !in ids[1..];
      forall i <- all ensures i !in ids[1..] ==> At(v, i) == At(u, i) {
        assert i == ids[0] || i in ids[1..] || i !in ids;
      }
      assert Sum(u, all) == Sum(w, all) - At(w, ids[0]) + At(v, ids[0]) by {
        SumUpdate(w, ids[0], At(v, ids[0]), all);
      }
      assert Sum(u, ids[1..]) == Sum(w, ids[1..]) by {
        SumFrame(w, u, ids[1..]);
      }
      TotalsDiffer(u, v, ids[1..], all);
    }
  }

  lemma GainWhole(before: Load, after: Load, ids: seq<int>)
    requires WholeOn(before, ids) && WholeOn(after, ids)
    ensures Whole(Gain(before, after, ids))
    decreases ids
  {
    assert Whole(0.0);
    if ids != [] {
      assert ids == [ids[0]] + ids[1..];
      GainWhole(before, after, ids[1..]);
      assert Whole(At(after, ids[0])) && Whole(At(before, ids[0]));
      GainStepWhole(At(before, ids[0]), At(after, ids[0]), Gain(before, after, ids[1..]));
    }
  }

  lemma GainStepWhole(before: real, after: real, rest: real)
    requires Whole(before) && Whole(after) && Whole(rest)
    ensures Whole(Max(0.0, after - before) + rest)
  {
    assert Whole(0.0);
    WholeSum(0.0, before);
    WholeSum(after, -before);
    WholeSum(Max(0.0, after - before), rest);
  }

  // ---- the final layout in whole pounds ----

  lemma SeatsWhole(p: Profile, c: Roles, live: Load, requested: real, i: int)
    requires PlanReady(p, c) && Whole(requested) && i in SeatsOf(c)
    ensures Whole(At(AfterSeats(p, c, Seeds(p, c, live), requested).0, i))
  {
    SeatSeedFits(p, c, live, i);
    if Ga(c) {
      SeatsReady(p, c, live);
      SeatStage(p, c, live, requested);
      StageBounds(Seeds(p, c, live), p, SeatsOf(c), requested, GaRetain(c, Seeds(p, c, live)), SeatSoftMax(p, c), i);
    }
  }

  /** Requests that fit, as the plan makes them. */
  ghost predicate Fits(p: Profile, c: Roles, live: Load, requested: real) {
    Whole(requested) && (Ga(c) ==> requested <= SeatRoomLb(p, c, Seeds(p, c, live)) + Sum(BagSoftMax(p, c), c.bags))
  }

  lemma BagsFinal(p: Profile, c: Roles, live: Load, requested: real, i: int)
    requires PlanReady(p, c) && Fits(p, c, live, requested) && i in c.bags
    ensures Whole(At(FinalLayout(p, c, Seeds(p, c, live), requested), i))
    ensures 0.0 <= At(FinalLayout(p, c, Seeds(p, c, live), requested), i)
  {
    var start := Seeds(p, c, live);
    var seats := AfterSeats(p, c, start, requested);
    AfterBagsBounds(p, c, live, requested, i);
    AfterSeatsBags(p, c, live, requested);
    assert At(seats.0, i) == 0.0 && Whole(0.0);
    if seats.1 > 0.0 {
      SeatStageWhole(p, c, live, requested);
      BagsReady(p, c, seats.0);
      StageBounds(seats.0, p, c.bags, seats.1, Zeros(c.bags), BagFillMax(p, c), i);
    }
  }

  /** Seats that are not touched after the seat stage, or are filled from their start. */
  lemma SeatFinal(p: Profile, c: Roles, live: Load, requested: real, i: int)
    requires PlanReady(p, c) && Fits(p, c, live, requested) && i in SeatsOf(c)
    ensures Whole(At(FinalLayout(p, c, Seeds(p, c, live), requested), i))
    ensures Ga(c) ==> At(FinalLayout(p, c, Seeds(p, c, live), requested), i)
                      == At(AfterSeats(p, c, Seeds(p, c, live), requested).0, i)
    ensures !Ga(c) ==> At(FinalLayout(p, c, Seeds(p, c, live), requested), i) >= At(Seeds(p, c, live), i)
  {
    var start := Seeds(p, c, live);
    AfterBagsBounds(p, c, live, requested, i);
    SeatsWhole(p, c, live, requested, i);
    if !Ga(c) && c.bags == [] && requested > 0.0 {
      SeatsReady(p, c, live);
      StageFillBounds(start, p, SeatsOf(c), requested, CrewRetain(c, start), SeatSoftMax(p, c), i);
    }
  }

  lemma FinalWhole(p: Profile, c: Roles, live: Load, requested: real)
    requires PlanReady(p, c) && Fits(p, c, live, requested)
    ensures WholeOn(FinalLayout(p, c, Seeds(p, c, live), requested), MovableOf(c))
    ensures WholeOn(Seeds(p, c, live), MovableOf(c))
  {
    ListsOf(p, c);
    assert Whole(0.0);
    forall i <- MovableOf(c)
      ensures Whole(At(FinalLayout(p, c, Seeds(p, c, live), requested), i)) && Whole(At(Seeds(p, c, live), i))
    {
      if i in SeatsOf(c) {
        SeatFinal(p, c, live, requested, i);
        SeatSeedFits(p, c, live, i);
      } else {
        BagsFinal(p, c, live, requested, i);
        BagSeed(p, c, live, i);
      }
    }
  }

  // ---- the report ----

  /** No movable station of the plan ends below its start. */
  ghost predicate NoneBelow(p: Profile, c: Roles, live: Load, w: Load) {
    forall i <- MovableOf(c) :: At(Seeds(p, c, live), i) <= At(w, i)
  }

  lemma RequestFits(cargoLb: real, p: Profile, r: Roles, live: Load)
    requires PlanReady(p, CabinOf(p, r))
    ensures var c := CabinOf(p, r);
            Fits(p, c, live, RequestedLb(cargoLb, FillCapacityLb(p, r, Seeds(p, c, live))))
  {
    CapacityFacts(p, r, live);
    RequestIs(cargoLb, FillCapacityLb(p, r, Seeds(p, CabinOf(p, r), live)));
  }

  lemma MovableIndexed(p: Profile, c: Roles, live: Load)
    requires PlanReady(p, c)
    ensures NoDup(MovableOf(c)) && NoDup(Indexes(p)) && Within(MovableOf(c), Indexes(p))
  {
    ListsOf(p, c);
    SeatsIndexed(p, c, live);
  }

  /** What the movable stations gained is the loaded cargo plus what some of them lost. */
  lemma ReportIsLoadedPlusLoss(cargoLb: real, p: Profile, r: Roles, live: Load)
    requires PlanReady(p, CabinOf(p, r)) && !NoStations(CabinOf(p, r))
    ensures var c := CabinOf(p, r);
            var plan := Distributed(cargoLb, p, r, live).value;
            plan.cargoPlacedLb == LoadedLb(cargoLb, p, r, live) + Loss(Seeds(p, c, live), plan.stations, MovableOf(c))
  {
    var c := CabinOf(p, r);
    var start := Seeds(p, c, live);
    var plan := Distributed(cargoLb, p, r, live).value;
    var ids, all := MovableOf(c), Indexes(p);
    MovableIndexed(p, c, live);
    ListsOf(p, c);
    forall i <- all ensures i !in ids ==> At(plan.stations, i) == At(start, i) {
      CargoRespectsCaps(cargoLb, p, r, live, i);
    }
    TotalsDiffer(start, plan.stations, ids, all);
    GainAndLoss(start, plan.stations, ids);
    assert Sum(plan.stations, all) - Sum(start, all) == LoadedLb(cargoLb, p, r, live) by {
      CargoIsConserved(cargoLb, p, r, live);
      SeedSum(p, c, live);
    }
    RequestFits(cargoLb, p, r, live);
    FinalWhole(p, c, live, RequestedLb(cargoLb, FillCapacityLb(p, r, start)));
    GainWhole(start, plan.stations, ids);
    RoundWhole(Gain(start, plan.stations, ids));
  }

  /** The reported cargo is never less than the loaded one, and equal to it exactly when no
      movable station ends below its start. */
  lemma ReportIsExactIff(cargoLb: real, p: Profile, r: Roles, live: Load)
    requires PlanReady(p, CabinOf(p, r)) && !NoStations(CabinOf(p, r))
    ensures var c := CabinOf(p, r);
            var plan := Distributed(cargoLb, p, r, live).value;
            && plan.cargoPlacedLb >= LoadedLb(cargoLb, p, r, live)
            && (plan.cargoPlacedLb == LoadedLb(cargoLb, p, r, live) <==> NoneBelow(p, c, live, plan.stations))
  {
    var c := CabinOf(p, r);
    ReportIsLoadedPlusLoss(cargoLb, p, r, live);
    GainAndLoss(Seeds(p, c, live), Distributed(cargoLb, p, r, live).value.stations, MovableOf(c));
  }

  /** A row in which a passenger seat `j` with room takes from the crew seat `i`: the crew carries at
      least two pounds, or one pound that goes to the lower index. */
  ghost predicate TakesFromCrew(p: Profile, c: Roles, i: int, j: int) {
    && i in c.crew && j in c.pax && ((i, j) in Rows(p, SeatsOf(c)) || (j, i) in Rows(p, SeatsOf(c)))
    && HardCap(p, j) > 0.0 && (HardCap(p, i) >= 2.0 || (HardCap(p, i) == 1.0 && j < i))
  }

  /** No row of the cabin does. */
  ghost predicate CrewSafe(p: Profile, c: Roles) {
    forall i <- c.crew, j <- c.pax :: !TakesFromCrew(p, c, i, j)
  }

  /** One seat of a row: floor `s`, weight `e` before and `r` after balancing, cap `c`. */
  datatype Seat = Seat(s: real, e: real, r: real, c: real)

  ghost predicate SeatOk(a: Seat) {
    && Whole(a.s) && Whole(a.e) && Whole(a.r) && Whole(a.c)
    && 0.0 <= a.s <= a.e <= a.c && 0.0 <= a.r <= a.c
  }

  /** A row before and after: the same pounds, evenly. */
  ghost predicate RowOk(lower: Seat, higher: Seat) {
    && SeatOk(lower) && SeatOk(higher) && lower.r + higher.r == lower.e + higher.e
    && EvenPair(lower.r, higher.r, lower.c, higher.c)
  }

  /** Two crew seats: whoever drops below its floor would leave its mate above its own. */
  lemma CrewRowKeeps(a: Seat, b: Seat)
    requires RowOk(a, b) && a.s == Min(FREIGHTER_PILOT_LB, a.c) && b.s == Min(FREIGHTER_PILOT_LB, b.c)
    ensures a.r >= a.s && b.r >= b.s
  {
    if a.r < a.s {
      WholeApart(a.r, a.s);
    }
    if b.r < b.s {
      WholeApart(b.r, b.s);
    }
  }

  /** A crew seat with a passenger seat that has no room, or with at most the odd pound and the lower
      index. */
  lemma SafeRowKeeps(a: Seat, b: Seat, crewIsLower: bool)
    requires RowOk(a, b)
    requires var crew, pax := if crewIsLower then a else b, if crewIsLower then b else a;
             crew.s == Min(FREIGHTER_PILOT_LB, crew.c) && (pax.c == 0.0 || crew.c == 0.0 || (crew.c == 1.0 && crewIsLower))
    ensures var crew := if crewIsLower then a else b;
            crew.r >= crew.s
  {
    var crew := if crewIsLower then a else b;
    assert Whole(1.0);
    if crew.r < crew.s {
      WholeApart(crew.r, crew.s);
    }
  }

  /** A seat of the cabin with the row it is in, as the seat stage leaves it. */
  function SeatAt(p: Profile, c: Roles, live: Load, requested: real, i: int): Seat {
    var start := Seeds(p, c, live);
    var e := Equalized(start, p, SeatsOf(c), requested, GaRetain(c, start), SeatSoftMax(p, c));
    Seat(At(start, i), At(e, i), At(Balanced(e, p, SeatsOf(c), SeatSoftMax(p, c)), i), EffectiveCap(p, SeatSoftMax(p, c), i))
  }

  lemma SeatFilled(p: Profile, c: Roles, live: Load, requested: real, i: int)
    requires PlanReady(p, c) && Whole(requested) && i in SeatsOf(c)
    ensures var a := SeatAt(p, c, live, requested, i);
            && Whole(a.s) && Whole(a.e) && Whole(a.c) && 0.0 <= a.s <= a.e <= a.c
            && a.c == Min(HardCap(p, i), SeatSoftLb(c))
            && a.s == (if i in c.crew then Min(FREIGHTER_PILOT_LB, HardCap(p, i)) else 0.0)
  {
    var start := Seeds(p, c, live);
    SeatsReady(p, c, live);
    SeatCap(p, c, i);
    SeatSeed(p, c, live, i);
    SeatSeedFits(p, c, live, i);
    StageFillBounds(start, p, SeatsOf(c), requested, GaRetain(c, start), SeatSoftMax(p, c), i);
  }

  /** A row of whole pounds within whole caps, after balancing. */
  lemma WholeRowIsEven(e: Load, caps: Load, row: Row)
    requires row.0 < row.1 && WholeCaps(caps, row) && Whole(At(e, row.0)) && Whole(At(e, row.1))
    requires 0.0 <= At(e, row.0) <= At(caps, row.0) && 0.0 <= At(e, row.1) <= At(caps, row.1)
    ensures var b := EvenRow(e, caps, row);
            && At(b, row.0) + At(b, row.1) == At(e, row.0) + At(e, row.1)
            && EvenPair(At(b, row.0), At(b, row.1), At(caps, row.0), At(caps, row.1))
  {
    EvenRowIsEven(e, caps, row);
    WholeTotalOf(At(e, row.0), At(e, row.1));
  }

  lemma RowSeats(p: Profile, ids: seq<int>, row: Row)
    requires row in Rows(p, ids)
    ensures row.0 < row.1 && row.0 in ids && row.1 in ids
  {
    RowsAreSound(p, ids);
  }

  lemma BalancedRow(e: Load, p: Profile, ids: seq<int>, soft: Load, row: Row)
    requires row in Rows(p, ids) && WholeOn(e, ids) && WholeOn(Caps(p, soft, ids), ids)
    requires forall i <- ids :: 0.0 <= At(e, i) <= EffectiveCap(p, soft, i)
    ensures var b := Balanced(e, p, ids, soft);
            && At(b, row.0) + At(b, row.1) == At(e, row.0) + At(e, row.1)
            && EvenPair(At(b, row.0), At(b, row.1), EffectiveCap(p, soft, row.0), EffectiveCap(p, soft, row.1))
  {
    RowSeats(p, ids, row);
    CapsAt(p, soft, ids, row.0);
    CapsAt(p, soft, ids, row.1);
    WholeRowIsEven(e, Caps(p, soft, ids), row);
    RowsPartition(p, ids);
    EvenRowsAt(e, Caps(p, soft, ids), Rows(p, ids), row);
  }

  lemma SeatRowOk(p: Profile, c: Roles, live: Load, requested: real, row: Row)
    requires PlanReady(p, c) && Whole(requested) && row in Rows(p, SeatsOf(c))
    ensures row.0 < row.1 && row.0 in SeatsOf(c) && row.1 in SeatsOf(c)
    ensures RowOk(SeatAt(p, c, live, requested, row.0), SeatAt(p, c, live, requested, row.1))
  {
    var start := Seeds(p, c, live);
    var seats, soft := SeatsOf(c), SeatSoftMax(p, c);
    var e := Equalized(start, p, seats, requested, GaRetain(c, start), soft);
    RowSeats(p, seats, row);
    SeatsReady(p, c, live);
    StageFillReady(start, p, seats, requested, GaRetain(c, start), soft);
    BalancedRow(e, p, seats, soft, row);
    SeatOkAt(p, c, live, requested, row.0);
    SeatOkAt(p, c, live, requested, row.1);
  }

  lemma SeatOkAt(p: Profile, c: Roles, live: Load, requested: real, i: int)
    requires PlanReady(p, c) && Whole(requested) && i in SeatsOf(c)
    ensures SeatOk(SeatAt(p, c, live, requested, i))
  {
    var start := Seeds(p, c, live);
    SeatsReady(p, c, live);
    SeatFilled(p, c, live, requested, i);
    StageBounds(start, p, SeatsOf(c), requested, GaRetain(c, start), SeatSoftMax(p, c), i);
  }

  lemma WholeTotalOf(a: real, b: real)
    requires Whole(a) && Whole(b) && a >= 0.0 && b >= 0.0
    ensures RoundLb(Max(0.0, a) + Max(0.0, b)) == a + b
  {
    WholeSum(a, b);
    RoundWhole(a + b);
  }

  lemma CrewKeepsItsSeat(p: Profile, c: Roles, live: Load, requested: real, i: int)
    requires PlanReady(p, c) && Whole(requested) && Ga(c) && i in c.crew && CrewSafe(p, c)
    ensures At(AfterSeats(p, c, Seeds(p, c, live), requested).0, i) >= At(Seeds(p, c, live), i)
  {
    var start := Seeds(p, c, live);
    var seats, soft := SeatsOf(c), SeatSoftMax(p, c);
    ListsOf(p, c);
    SeatStage(p, c, live, requested);
    SeatFilled(p, c, live, requested, i);
    if InRows(Rows(p, seats), i) {
      var row :| row in Rows(p, seats) && (row.0 == i || row.1 == i);
      CrewRowIsSafe(p, c, live, requested, row, i);
    } else {
      var e := Equalized(start, p, seats, requested, GaRetain(c, start), soft);
      EvenRowsElsewhere(e, Caps(p, soft, seats), Rows(p, seats), i);
    }
  }

  lemma CrewRowIsSafe(p: Profile, c: Roles, live: Load, requested: real, row: Row, i: int)
    requires PlanReady(p, c) && Whole(requested) && Ga(c) && i in c.crew && CrewSafe(p, c)
    requires row in Rows(p, SeatsOf(c)) && (row.0 == i || row.1 == i)
    ensures SeatAt(p, c, live, requested, i).r >= SeatAt(p, c, live, requested, i).s
  {
    var a, b := SeatAt(p, c, live, requested, row.0), SeatAt(p, c, live, requested, row.1);
    var j := if row.0 == i then row.1 else row.0;
    SeatRowOk(p, c, live, requested, row);
    SeatFilled(p, c, live, requested, i);
    SeatFilled(p, c, live, requested, j);
    if j in c.crew {
      CrewRowKeeps(a, b);
    } else {
      assert j in c.pax by {
        ListsOf(p, c);
      }
      assert !TakesFromCrew(p, c, i, j);
      SmallCap(p, c, i);
      SafeRowKeeps(a, b, row.0 == i);
    }
  }

  lemma SmallCap(p: Profile, c: Roles, i: int)
    requires PlanReady(p, c) && i in SeatsOf(c)
    ensures HardCap(p, i) < 2.0 ==> HardCap(p, i) == 0.0 || HardCap(p, i) == 1.0
  {
    SeatCap(p, c, i);
    if HardCap(p, i) < 2.0 {
      BelowTwo(HardCap(p, i));
    }
  }

  lemma BelowTwo(x: real)
    requires Whole(x) && 0.0 <= x < 2.0
    ensures x == 0.0 || x == 1.0
  {
    var n := x.Floor;
    assert n == 0 || n == 1;
  }

  /** In a freighter, and in a cabin in which no row takes from the crew, the report is exact. */
  lemma ReportIsExact(cargoLb: real, p: Profile, r: Roles, live: Load)
    requires PlanReady(p, CabinOf(p, r)) && !NoStations(CabinOf(p, r))
    requires !Ga(CabinOf(p, r)) || CrewSafe(p, CabinOf(p, r))
    ensures Distributed(cargoLb, p, r, live).value.cargoPlacedLb == LoadedLb(cargoLb, p, r, live)
  {
    var c := CabinOf(p, r);
    var requested := RequestedLb(cargoLb, FillCapacityLb(p, r, Seeds(p, c, live)));
    ListsOf(p, c);
    RequestFits(cargoLb, p, r, live);
    forall i <- MovableOf(c) ensures At(Seeds(p, c, live), i) <= At(FinalLayout(p, c, Seeds(p, c, live), requested), i) {
      FinalNotBelow(p, c, live, requested, i);
    }
    ReportIsExactIff(cargoLb, p, r, live);
  }

  lemma FinalNotBelow(p: Profile, c: Roles, live: Load, requested: real, i: int)
    requires PlanReady(p, c) && Fits(p, c, live, requested) && i in MovableOf(c) && (!Ga(c) || CrewSafe(p, c))
    ensures At(Seeds(p, c, live), i) <= At(FinalLayout(p, c, Seeds(p, c, live), requested), i)
  {
    ListsOf(p, c);
    if i in c.bags {
      BagsFinal(p, c, live, requested, i);
      BagSeed(p, c, live, i);
    } else {
      SeatFinal(p, c, live, requested, i);
      if Ga(c) && i in c.crew {
        CrewKeepsItsSeat(p, c, live, requested, i);
      } else if Ga(c) {
        SeatSeed(p, c, live, i);
        AfterSeatsBounds(p, c, live, requested, i);
      }
    }
  }

  // ---- the reported baggage capacity ----

  /** A freighter's plan never loads more baggage than the capacity it reports, and loads all of it when the
      cargo is enough. */
  lemma FreighterBaggage(cargoLb: real, p: Profile, r: Roles, live: Load)
    requires PlanReady(p, CabinOf(p, r)) && !Ga(CabinOf(p, r)) && CabinOf(p, r).bags != []
    ensures var plan := Distributed(cargoLb, p, r, live).value;
            Sum(plan.stations, CabinOf(p, r).bags) == Max(0.0, Min(RoundLb(cargoLb), plan.baggageCapacityLb))
  {
    var c := CabinOf(p, r);
    var start := Seeds(p, c, live);
    var w := Distributed(cargoLb, p, r, live).value.stations;
    assert Sum(w, Indexes(p)) - Sum(start, Indexes(p)) == LoadedLb(cargoLb, p, r, live) by {
      CargoIsConserved(cargoLb, p, r, live);
      SeedSum(p, c, live);
    }
    assert Sum(start, c.bags) == 0.0 by {
      BagsStartEmpty(p, c, live);
    }
    assert Sum(w, Indexes(p)) - Sum(start, Indexes(p)) == Sum(w, c.bags) - Sum(start, c.bags) by {
      BagsIndexed(p, c, live);
      forall i <- Indexes(p) ensures i !in c.bags ==> At(w, i) == At(start, i) {
        if i !in c.bags {
          OnlyBagsChange(cargoLb, p, r, live, i);
        }
      }
      TotalsDiffer(start, w, c.bags, Indexes(p));
    }
  }

  lemma BagsIndexed(p: Profile, c: Roles, live: Load)
    requires PlanReady(p, c)
    ensures NoDup(c.bags) && NoDup(Indexes(p)) && Within(c.bags, Indexes(p))
  {
    ListsOf(p, c);
    MovableIndexed(p, c, live);
    forall i <- c.bags ensures i in Indexes(p) {
      assert i in MovableOf(c);
    }
  }

  lemma OnlyBagsChange(cargoLb: real, p: Profile, r: Roles, live: Load, i: int)
    requires PlanReady(p, CabinOf(p, r)) && !Ga(CabinOf(p, r)) && CabinOf(p, r).bags != [] && i !in CabinOf(p, r).bags
    ensures At(Distributed(cargoLb, p, r, live).value.stations, i) == At(Seeds(p, CabinOf(p, r), live), i)
  {
    var c := CabinOf(p, r);
    if i in SeatsOf(c) {
      ListsOf(p, c);
      FreighterCrewStays(cargoLb, p, r, live, i);
      SeatSeed(p, c, live, i);
    } else {
      CargoRespectsCaps(cargoLb, p, r, live, i);
    }
  }

  lemma BagsStartEmpty(p: Profile, c: Roles, live: Load)
    requires PlanReady(p, c)
    ensures Sum(Seeds(p, c, live), c.bags) == 0.0
  {
    forall i <- c.bags ensures At(Seeds(p, c, live), i) == 0.0 {
      BagSeed(p, c, live, i);
    }
    ZeroSum(Seeds(p, c, live), c.bags);
  }

  /** In a cabin with passengers the reported capacity is 50 lb, or less where a station holds less, for every
      known baggage station, and no plan loads more. */
  lemma CabinBaggage(cargoLb: real, p: Profile, r: Roles, live: Load)
    requires PlanReady(p, CabinOf(p, r)) && Ga(CabinOf(p, r))
    ensures var plan := Distributed(cargoLb, p, r, live).value;
            && Sum(plan.stations, CabinOf(p, r).bags) <= plan.baggageCapacityLb == SmallHolds(p, CabinOf(p, r).bags)
  {
    var c := CabinOf(p, r);
    var w := Distributed(cargoLb, p, r, live).value.stations;
    forall i <- c.bags ensures At(w, i) <= At(BagSoftMax(p, c), i) == Min(HardCap(p, i), 50.0) {
      CargoRespectsCaps(cargoLb, p, r, live, i);
      BagCap(p, c, i);
    }
    SumTight(w, BagSoftMax(p, c), c.bags);
    SmallHoldsAre(p, BagSoftMax(p, c), c.bags);
  }

  function SmallHolds(p: Profile, bags: seq<int>): real {
    if bags == [] then 0.0 else Min(HardCap(p, bags[0]), 50.0) + SmallHolds(p, bags[1..])
  }

  lemma SmallHoldsAre(p: Profile, soft: Load, bags: seq<int>)
    requires forall i <- bags :: At(soft, i) == Min(HardCap(p, i), 50.0)
    ensures Sum(soft, bags) == SmallHolds(p, bags)
  {
    if bags != [] {
      assert bags[0] in bags;
      SmallHoldsAre(p, soft, bags[1..]);
    }
  }

  // ---- where it is not exact ----

  /** With such a row and no cargo at all, the crew seat ends below its floor and the plan
      reports cargo it never loaded. */
  lemma MixedRowOverReports(p: Profile, r: Roles, live: Load, i: int, j: int)
    requires PlanReady(p, CabinOf(p, r)) && TakesFromCrew(p, CabinOf(p, r), i, j)
    ensures var plan := Distributed(0.0, p, r, live).value;
            && At(plan.stations, i) < Min(FREIGHTER_PILOT_LB, HardCap(p, i))
            && LoadedLb(0.0, p, r, live) == 0.0 && plan.cargoPlacedLb > 0.0
  {
    var c := CabinOf(p, r);
    ListsOf(p, c);
    NoCargo(p, r, live);
    SeatFinal(p, c, live, 0.0, i);
    MixedRowTakesCrew(p, c, live, i, j);
    SeatSeed(p, c, live, i);
    assert i in MovableOf(c);
    ReportIsExactIff(0.0, p, r, live);
  }

  lemma NoCargo(p: Profile, r: Roles, live: Load)
    requires PlanReady(p, CabinOf(p, r))
    ensures var f := FillCapacityLb(p, r, Seeds(p, CabinOf(p, r), live));
            RequestedLb(0.0, f) == 0.0 && LoadedLb(0.0, p, r, live) == 0.0
    ensures Fits(p, CabinOf(p, r), live, 0.0)
  {
    assert Whole(0.0);
    CapacityFacts(p, r, live);
    RoundWhole(0.0);
    RequestFits(0.0, p, r, live);
  }

  /** A seat with at least two pounds, or with one pound and the higher index, gives to an empty one. */
  lemma RowGives(a: Seat, b: Seat, crewIsLower: bool)
    requires RowOk(a, b)
    requires var crew, pax := if crewIsLower then a else b, if crewIsLower then b else a;
             && crew.e == crew.s && pax.e == 0.0 && pax.c > 0.0
             && (crew.s >= 2.0 || (crew.s == 1.0 && !crewIsLower))
    ensures var crew := if crewIsLower then a else b;
            crew.r < crew.s
  {
  }

  lemma MixedRowTakesCrew(p: Profile, c: Roles, live: Load, i: int, j: int)
    requires PlanReady(p, c) && TakesFromCrew(p, c, i, j)
    ensures At(AfterSeats(p, c, Seeds(p, c, live), 0.0).0, i) < Min(FREIGHTER_PILOT_LB, HardCap(p, i))
  {
    assert Whole(0.0);
    assert i in SeatsOf(c) && Ga(c) by {
      ListsOf(p, c);
    }
    assert At(AfterSeats(p, c, Seeds(p, c, live), 0.0).0, i) == SeatAt(p, c, live, 0.0, i).r by {
      SeatStage(p, c, live, 0.0);
    }
    assert SeatAt(p, c, live, 0.0, i).s == Min(FREIGHTER_PILOT_LB, HardCap(p, i)) by {
      EmptyRow(p, c, live, i);
    }
    MixedRowGives(p, c, live, i, j);
  }

  lemma MixedRowGives(p: Profile, c: Roles, live: Load, i: int, j: int)
    requires PlanReady(p, c) && TakesFromCrew(p, c, i, j)
    ensures SeatAt(p, c, live, 0.0, i).r < SeatAt(p, c, live, 0.0, i).s
  {
    var row := if (i, j) in Rows(p, SeatsOf(c)) then (i, j) else (j, i);
    var a, b := SeatAt(p, c, live, 0.0, row.0), SeatAt(p, c, live, 0.0, row.1);
    assert Whole(0.0);
    ListsOf(p, c);
    SeatRowOk(p, c, live, 0.0, row);
    EmptyRow(p, c, live, i);
    EmptyRow(p, c, live, j);
    RowGives(a, b, row.0 == i);
  }

  /** With no cargo the fill leaves a seat at its floor. */
  lemma EmptyRow(p: Profile, c: Roles, live: Load, i: int)
    requires PlanReady(p, c) && i in SeatsOf(c)
    ensures var a := SeatAt(p, c, live, 0.0, i);
            && a.e == a.s && a.c == Min(HardCap(p, i), SeatSoftLb(c))
            && a.s == (if i in c.crew then Min(FREIGHTER_PILOT_LB, HardCap(p, i)) else 0.0)
  {
    var start := Seeds(p, c, live);
    assert Whole(0.0);
    SeatsReady(p, c, live);
    SeatFilled(p, c, live, 0.0, i);
    NoCargoNoChange(start, p, SeatsOf(c), GaRetain(c, start), SeatSoftMax(p, c), i);
  }

  lemma NoCargoNoChange(w: Load, p: Profile, ids: seq<int>, minRetain: Load, softMax: Load, i: int)
    requires StageReady(w, p, ids, minRetain, softMax) && i in ids
    ensures At(Equalized(w, p, ids, 0.0, minRetain, softMax), i) == At(w, i)
  {
    assert Whole(0.0);
    StagePours(w, p, ids, 0.0, minRetain, softMax);
    assert Pour(w, Caps(p, softMax, ids), ids, 0.0) == w;
  }

  /** The report is exact for every cargo if and only if the plan is a freighter or no row of the cabin
      takes from the crew. */
  lemma ReportIsAlwaysExactIff(p: Profile, r: Roles, live: Load)
    requires PlanReady(p, CabinOf(p, r)) && !NoStations(CabinOf(p, r))
    ensures (forall cargoLb: real :: Distributed(cargoLb, p, r, live).value.cargoPlacedLb == LoadedLb(cargoLb, p, r, live))
            <==> !Ga(CabinOf(p, r)) || CrewSafe(p, CabinOf(p, r))
  {
    var c := CabinOf(p, r);
    if !Ga(c) || CrewSafe(p, c) {
      forall cargoLb: real ensures Distributed(cargoLb, p, r, live).value.cargoPlacedLb == LoadedLb(cargoLb, p, r, live) {
        ReportIsExact(cargoLb, p, r, live);
      }
    } else {
      var i, j :| i in c.crew && j in c.pax && TakesFromCrew(p, c, i, j);
      MixedRowOverReports(p, r, live, i, j);
    }
  }

  // ---- such a cabin ----

  /** A pilot seat and a passenger seat of 300 lb each, without arms or side names. */
  ghost predicate PilotAndPassenger(p: Profile, r: Roles) {
    && |p| == 2 && p[0] == Station(1, 300.0, None, None, false) && p[1] == Station(2, 300.0, None, None, false)
    && r == Roles([1], [2], [], [])
  }

  lemma SeatsFound(p: Profile, r: Roles)
    requires PilotAndPassenger(p, r)
    ensures Lookup(p, 1) == Some(p[0]) && Lookup(p, 2) == Some(p[1]) && Resolve(p, [1, 2]) == p
  {
    assert p[1..] == [p[1]];
    assert Lookup(p, 2) == Lookup(p[1..], 2);
    assert [1, 2][1..] == [2] && [2][1..] == [];
    assert Resolve(p, [2]) == [p[1]];
  }

  lemma NoArmsNoNames(ss: seq<Station>)
    requires forall s <- ss :: s.arm.None? && s.side.None?
    ensures WithArm(ss) == [] && forall b: Book, side: Side :: OnSide(b, ss, side) == []
  {
    if ss != [] {
      assert ss == [ss[0]] + ss[1..];
      NoArmsNoNames(ss[1..]);
    }
  }

  lemma TwoSeatsAreARow(p: Profile, r: Roles)
    requires PilotAndPassenger(p, r)
    ensures Rows(p, [1, 2]) == [(1, 2)]
  {
    var none := Book([], {});
    SeatsFound(p, r);
    NoArmsNoNames(p);
    assert AfterNames(p) == none;
    assert p[1..] == [p[1]] && [p[1]][1..] == [] && p[2..] == [];
    assert Cabin(none, [p[1]]) == [p[1]] + Cabin(none, []);
    assert Cabin(none, p) == [p[0]] + Cabin(none, [p[1]]) == p;
    Sorting.SortIdle(p, IndexAscending);
    assert PairConsecutive(none, p) == PairConsecutive(AddPair(none, 1, 2), p[2..]);
  }

  lemma TwoSeatsReady(p: Profile, r: Roles)
    requires PilotAndPassenger(p, r)
    ensures CabinOf(p, r) == r && PlanReady(p, r) && SeatsOf(r) == [1, 2]
    ensures HardCap(p, 1) == 300.0 && HardCap(p, 2) == 300.0
  {
    SeatsFound(p, r);
    OnePresent(p, 1);
    OnePresent(p, 2);
    assert Whole(300.0);
    assert r.crew + r.pax == [1, 2] && r.crew + r.pax + r.bags == [1, 2];
    DedupeSame([1, 2]);
  }

  lemma OnePresent(p: Profile, i: int)
    requires Known(p, i)
    ensures Present(p, [i]) == [i]
  {
    assert [i][1..] == [];
    assert Present(p, []) == [];
  }

  /** Pilot and passenger in one row, no cargo: the pilot seat drops below 170 lb and cargo is reported. */
  lemma PilotSeatIsTaken(p: Profile, r: Roles, live: Load)
    requires PilotAndPassenger(p, r)
    ensures var plan := Distributed(0.0, p, r, live).value;
            At(plan.stations, 1) < 170.0 && LoadedLb(0.0, p, r, live) == 0.0 && plan.cargoPlacedLb > 0.0
  {
    TwoSeatsReady(p, r);
    TwoSeatsAreARow(p, r);
    assert (1, 2) in Rows(p, [1, 2]);
    assert TakesFromCrew(p, r, 1, 2);
    MixedRowOverReports(p, r, live, 1, 2);
  }
}
