# Load planner, SimConnect session, world pulse and locks

A Dafny model of the parts of the flight-simulator compatibility layer that carry its hardest
promises, with proofs. `dafny verify dfyconfig.toml` checks everything.

## What is modelled

**The load distributor** turns block fuel and cargo into quantities per tank and station.
Quantities are real numbers, as in the source up to floating-point rounding; `Whole` and `OnGrid`
single out whole pounds and the grid of a fuel unit.

- `Weights`, `Stations`, `Sorting`, `Options`, `LoadErrors`: loads, profiles, sums, rooms and moments.
- `WaterFill`: the pound-by-pound fill. `LateralRows`, `ArmRows`, `RowBalance`: left/right rows, their balancing and what it does
  to the moment.
- `CgShift`, `CgShiftLaws`, `ShiftOrder`, `ShiftDeferral`, `ShiftDirection`, `ShiftMass`: moving payload forward or aft. `CargoRounds`,
  `RoundDirection`: placement rounds.
- `FuelSplit`, `FuelSplitLaws`, `FuelOrder`: fuel over tanks. `ResidualFloors`, `ResidualOrder`: unusable live rests.
- `FillStage`, `CargoPlan`, `CargoPlanLaws`: cargo over seats and baggage. `CargoReport`: what
  `cargoPlacedLb` says. `CargoCeiling`, `CeilingRoles`: the market ceiling. `LoadPlan`, `LoadKept`: the whole plan under the
  take-off limit. `LoadEdges`, `RowEdges`: inputs where the code is narrower than its comments, with exact conditions.

**The SimConnect session** (`SimReads`, `SimSession`, `SimSessionLaws`, `SessionReuse`, `SimClient`) is a step machine:
the two locked sections of a connect, the locked section of a read or write under the operation
lock, replies, expiries, storms and tear-downs in any order. `SimClient` is the session object itself, one
method per section, each equal to its step.

**The world pulse** (`WorldPulse`): chunks, two levels of unsaved change, one coalesced save, and a flag
that must survive failing saves.

**Small algorithms**: the background flood fill (`FloodFill`), the sliding-window limiter against a
limiter that keeps the whole history (`AuthRateLimit`), promise-chain locks as a FIFO ticket lock
(`PromiseLocks`), and the world-then-company rule for any number of clients (`TwoLocks`).

Code that updates state in the source is a method or a class here and is proved equal to a
specification function; the laws are lemmas about those functions.

## Results worth knowing

- Clamping has a hole: a request above capacity + 0.01 and up to capacity + 0.05 fails even when clamping is
  asked for (`DistributeAcceptsIff` gives the exact set, `ClampBandFails` an input).
- With tanks in pounds or kilograms, all of them in symmetric pairs, a fractional request that fits can be refused
  (`FractionalUnitsFail`). `SplitAcceptsIff` and `AnyTanksAcceptIff` say exactly when, for any tanks; `EqualSidesAcceptIff` turns it
  into one comparison; whole requests and aircraft with one unpaired tank are safe
  (`WholeRequestIsAccepted`, `SpareTankAcceptsIff`).
- The mains come before the AUX and TIP pairs, except that what rounding leaves over can reach a pair of which one tank holds
  nearly nothing (`MainsFirst`, `CrumbReachesAux`); `AuxWaitsIff` says for which tanks that happens.
- A deferred crew seat can gain while other seats have room, when a shift asks for more than its source can spare (`DeferredSeatGains`).
- Balancing a row can change its mass when the row's total is fractional or passes its caps (`EvenRowKeepsMassIff`): a shift that
  moves nothing can lose 0.4 lb (`FractionIsLost`, bounded by `ShiftMassWithin`).
- A forward shift can end further aft (`ForwardMoveEndsAft`). `ShiftGoesRightIff` says for which profiles no shift ever does: those in
  which no row can slip back in the final balancing. `EvenRowMomentIff` is the condition for one balancing.
- The index pass pairs stations with known, distant arms, although its comment speaks of missing arms
  (`DistantRowIff`, `DistantArmsArePaired`).
- A crew seat in a row with a passenger seat can drop below 170 lb and `cargoPlacedLb` over-reports;
  `ReportIsAlwaysExactIff` says for which cabins, `PilotSeatIsTaken` shows one.
- The take-off room does not count live mass kept on service stations (`OverLimitIff`, `LoadedGalleyIsTooHeavy`).
- The comment of the market ceiling promises the inject rules, but the market looks at the listed roles and the fill at the known
  stations. In a cabin with a known passenger seat the two agree exactly when every role station is known and has a positive limit
  (`GaCeilingAgreesIff`); `CeilingAgreesIff` gives the condition for every role map, and `CrewAloneDisagrees`, `SealedSeatDisagrees`
  and `UnknownPaxAgrees` show cabins on either side.
- Connects are not serialised by the pipe server. Two overlapping ones can replace an undisposed handle, after which a
  cached definition id may be unknown to the live handle (`CreateLeaksIff`, `OverlapBreaksTheCache`). All run theorems hold for
  any number of connects as long as none does that.
- A chunk that throws after a change of the planet, by an earlier chunk or by itself, makes the pulse service forget the change
  (`ThrowForgetsIff`, `ThrowingChunkLosesTheFlag`, `FirstChunkLosesTheFlag`). The live tick precedes the saves that can throw
  (packages/career-ui/server/api.ts:3886-3915).

## Model

| member | source | states |
|---|---|---|
| WaterFill.EqualizeMovableStations | packages/agent/src/ofp-load-plan.ts:802-836 | the two loops compute the retained start levels and then the pound-by-pound fill; they stop, also with fractional caps, because every dose uses up a pound, ends the amount or closes a station |
| WaterFill.FillByPounds | packages/agent/src/ofp-load-plan.ts:824-834 | the sort-and-give-one-pound loop refines the recursive fill `Pour` |
| WaterFill.EqualizedPlaces | packages/agent/src/ofp-load-plan.ts:824-834 | exactly min(rounded cargo, total room) is placed |
| WaterFill.EqualizedBounds | packages/agent/src/ofp-load-plan.ts:815-833 | retained floors hold as far as caps allow, caps hold, other stations keep their weight |
| WaterFill.EqualizedIsFair | packages/agent/src/ofp-load-plan.ts:825-833 | a station that received cargo ends at most 1 lb above any station that still has room |
| WaterFill.EqualizedIgnoresOrder | packages/agent/src/ofp-load-plan.ts:815-834 | the layout does not depend on the order (or repetition) of the movable indexes |
| WaterFill.PourWhole | packages/agent/src/ofp-load-plan.ts:831-833 | whole pounds and whole caps stay whole |
| LateralRows.FindLateralStationGroups | packages/agent/src/ofp-load-plan.ts:1243-1317 | the four pairing loops over the mutated `pairs`/`paired` compute `Rows` |
| LateralRows.PairBook.Add | packages/agent/src/ofp-load-plan.ts:1254-1259 | a pair is recorded in index order only when both stations are still free, which AddPairSound says keeps rows sorted and disjoint |
| LateralRows.GroupStations | packages/agent/src/ofp-load-plan.ts:1263-1269 | grouping by rounded arm, in order of first appearance |
| LateralRows.PairByArms | packages/agent/src/ofp-load-plan.ts:1263-1286 | same-arm groups of exactly two, then staggered neighbours within 2 ft |
| LateralRows.PairByNames | packages/agent/src/ofp-load-plan.ts:1289-1300 | left and right seats matched up in index order |
| LateralRows.PairByIndex | packages/agent/src/ofp-load-plan.ts:1302-1314 | neighbouring indexes, centre-line holds left out |
| LateralRows.RowsAreSound | packages/agent/src/ofp-load-plan.ts:1252-1316 | rows are sorted pairs of distinct known movable stations, no station is in two rows, and every row has one of the four reasons for pairing |
| LateralRows.EqualizeLateralStationPairs | packages/agent/src/ofp-load-plan.ts:1323-1361 | the loops compute `Balanced` |
| LateralRows.EqualizeRows | packages/agent/src/ofp-load-plan.ts:1338-1359 | emptying and refilling row after row |
| LateralRows.EvenRowShares | packages/agent/src/ofp-load-plan.ts:1340-1358 | a row ends with its rounded total or all it can hold, within caps, mates within 1 lb unless the lighter is full |
| LateralRows.EvenRowKeepsMassIff | packages/agent/src/ofp-load-plan.ts:1341-1358 | exactly when a row keeps its mass: a whole total that fits, or a total equal to the caps |
| LateralRows.EvenRowsAt | packages/agent/src/ofp-load-plan.ts:1338-1359 | rows are disjoint, so each row of the result is what balancing that row alone gives |
| LateralRows.EvenRowsElsewhere | packages/agent/src/ofp-load-plan.ts:1338-1359 | stations in no row keep their weight |
| LateralRows.EvenRowsKeep | packages/agent/src/ofp-load-plan.ts:1319-1361 | whole rows that fit keep the total mass and, when each row is on one arm, the moment |
| LateralRows.EvenRowsIdempotent | packages/agent/src/ofp-load-plan.ts:1323-1361 | balancing twice is balancing once if and only if every row settles: its rounded total fits, or its joint capacity does not round down |
| LateralRows.EvenRowsBounds | packages/agent/src/ofp-load-plan.ts:1346-1357 | no station goes below zero or above its cap |
| RowBalance.EvenRowIsEven | packages/agent/src/ofp-load-plan.ts:1340-1358 | under whole caps a balanced row is fixed by its total: the lower index gets the odd pound and a difference is left only where the lighter seat is full |
| RowBalance.AlreadyEvenIff | packages/agent/src/ofp-load-plan.ts:1340-1358 | balancing leaves a row that fits alone if and only if its weights are whole, within caps and even already |
| RowBalance.EvenRowMomentIff | packages/agent/src/ofp-load-plan.ts:1340-1358 | balancing a row that fits keeps the moment if and only if both seats are on one arm or the row is even already |
| RowBalance.EvenRowsMoment | packages/agent/src/ofp-load-plan.ts:1338-1359 | balancing all rows changes the moment by exactly the sum of arm gap times pounds that change seats |
| CgShift.ShiftCargoForCg | packages/agent/src/ofp-load-plan.ts:1373-1483 | the nested source/target loops with their skips and breaks equal one greedy pass over the allowed moves, followed by balancing |
| CgShift.DrainSource | packages/agent/src/ofp-load-plan.ts:1437-1476 | one source over all targets |
| CgShift.TryTarget | packages/agent/src/ofp-load-plan.ts:1446-1475 | one target: the six skip conditions and the three-way minimum |
| CgShift.OrderGraded | packages/agent/src/ofp-load-plan.ts:1185-1203 | the forward-first order is graded by arm when every station has one |
| CgShift.RunConserves | packages/agent/src/ofp-load-plan.ts:1468-1474 | the pass keeps the movable mass and accounts for every pound moved |
| CgShift.RunGains | packages/agent/src/ofp-load-plan.ts:1454-1474 | every pound moved gains at least 0.05 lb-ft |
| CgShift.RunSaturates | packages/agent/src/ofp-load-plan.ts:1437-1476 | in a compatible order of moves nothing done later reopens an earlier move |
| CgShiftLaws.MovesOfHas | packages/agent/src/ofp-load-plan.ts:1421-1462 | deferring targets changes their order, never which moves are allowed |
| CgShiftLaws.ShiftConserves | packages/agent/src/ofp-load-plan.ts:1368-1483 | movable mass exact, other stations untouched, caps respected, moved pounds at most the rounded amount |
| CgShiftLaws.ShiftMovesMoment | packages/agent/src/ofp-load-plan.ts:1368-1483 | with arms known and rows on one arm, forward raises and aft lowers the moment by at least 0.05 per pound moved, through the final balancing |
| CgShiftLaws.PassMovesMoment | packages/agent/src/ofp-load-plan.ts:1437-1476 | before the final balancing the pass goes the right way for rows on any arms |
| CgShiftLaws.ShiftMomentIs | packages/agent/src/ofp-load-plan.ts:1437-1483 | whatever arms it is measured by, the moment a shift ends with is that of the pass plus the drift of its rows |
| ShiftDirection.ShiftGoesRightIff | packages/agent/src/ofp-load-plan.ts:1368-1483 | for every load, amount, floor and deferral the shift gains at least 0.05 lb-ft per reported pound in its direction, if and only if no row slips: no seat that leads by arm can hold two pounds (one, on the higher index) beside a mate with room |
| ShiftDirection.SlippingShift | packages/agent/src/ofp-load-plan.ts:1478-1482 | what a slipping row does: pounds held on its leading seat, nothing moves, and balancing takes one back |
| ShiftMass.ShiftMassWithin | packages/agent/src/ofp-load-plan.ts:1368-1483 | for any weights within the caps, fractions included, a shift changes the movable mass by at most half a pound per row |
| ShiftMass.ShiftKeepsMassIff | packages/agent/src/ofp-load-plan.ts:1368-1483 | it keeps the mass of every such load if and only if no row can hold anything |
| ShiftMass.FractionIsLost | packages/agent/src/ofp-load-plan.ts:1338-1358 | 0.4 lb and 0 lb on a row: the shift reports that nothing moved and the 0.4 lb are gone |
| CgShiftLaws.ShiftIsMaximal | packages/agent/src/ofp-load-plan.ts:1421-1476 | without rows, and where allowed moves chain, a shift that stops short leaves every allowed move stuck: source at its floor or target full, whatever was deferred |
| ShiftOrder.AllowedByArm | packages/agent/src/ofp-load-plan.ts:1446-1466 | with arms everywhere a move is allowed if and only if it gains at least 0.05 ft in the direction and does not join row mates |
| ShiftOrder.AllowedByIndex | packages/agent/src/ofp-load-plan.ts:1446-1466 | where an arm is missing, if and only if it goes down the indexes (aft: up), joins no row mates and not two stations known to be on one arm |
| ShiftOrder.EveryTurnServesFirst | packages/agent/src/ofp-load-plan.ts:1421-1475 | in every turn of a source, a station that gains has every preferred station the source may feed full: forward the non-deferred before the deferred, and in each class the further forward first; aft the further aft first |
| ShiftOrder.ShiftServesFirst | packages/agent/src/ofp-load-plan.ts:1421-1476 | the same for the result of a shift with one station above its floor |
| ShiftDeferral.DeferredSeatGains | packages/agent/src/ofp-load-plan.ts:1421-1476 | why deferral and an amount above what the source can spare are left out there: 150 lb asked of 100 put 50 lb on the deferred seat while the seat behind it has room |
| ShiftOrder.ShiftDrainsLastFirst | packages/agent/src/ofp-load-plan.ts:1421-1476 | with room on one station only, a station that gave has every station behind it that may feed the open one down at its floor |
| CgShiftLaws.UniformArmsChain | packages/agent/src/ofp-load-plan.ts:1185-1203 | moves chain when all the known stations have arms or none has |
| CgShiftLaws.ApartArmsChain | packages/agent/src/ofp-load-plan.ts:1446-1462 | moves chain for any mix of stations with and without arms whose known arms are not closer than 0.05 ft |
| FuelSplit.DistributeFuelAcrossTanks | packages/agent/src/ofp-load-plan.ts:242-365 | conversion, clamp, filling and the error exits compute `Distributed` |
| FuelSplit.FillTanks | packages/agent/src/ofp-load-plan.ts:299-346 | both filling loops compute `Split` |
| FuelSplit.FillSymmetric | packages/agent/src/ofp-load-plan.ts:308-333 | the pair loop |
| FuelSplit.SharePair | packages/agent/src/ofp-load-plan.ts:316-327 | the shares add up to what is taken, fit the tanks, and differ only where the emptier tank is full; EvenSharesAreUnique says there is one such pair of shares |
| FuelSplit.EvenSharesAreUnique | packages/agent/src/ofp-load-plan.ts:316-327 | sharing evenly within two capacities determines both shares, also for the small overdraft a pair may start from |
| FuelSplit.FillUnpaired | packages/agent/src/ofp-load-plan.ts:336-346 | unpaired tanks in profile order with the early exit |
| FuelSplit.RoundGrid | packages/agent/src/ofp-load-plan.ts:195-200 | rounding is off by at most half a step (a hundredth, or a whole pound or kilogram) and keeps values on the grid |
| FuelSplitLaws.PairShares | packages/agent/src/ofp-load-plan.ts:312-330 | in any unit and for any capacities, the shares of a pair stay within the rounded tanks, miss the request by at most one step, and are equal for equal tanks |
| FuelSplitLaws.TanksStayInside | packages/agent/src/ofp-load-plan.ts:306-346 | no tank ends below empty or above its rounded capacity, for any capacities and any request |
| FuelSplitLaws.SplitAcceptsIff | packages/agent/src/ofp-load-plan.ts:306-354 | for any capacities: accepted if and only if what the pairs leave over fits into the unpaired tanks to 0.01 |
| FuelSplitLaws.AnyTanksAcceptIff | packages/agent/src/ofp-load-plan.ts:287-354 | the same for the whole function with the clamp, for any tank list and unit |
| FuelSplitLaws.AnyTanksDeliver | packages/agent/src/ofp-load-plan.ts:242-365 | what any accepted request gets, for any capacities: every tank in [0, rounded capacity], the total of SplitTotal, the clamp flag, and the reported pounds and capacity |
| FuelSplitLaws.SplitPlaces | packages/agent/src/ofp-load-plan.ts:306-354 | in any unit, for capacities on its grid: every tank in [0, capacity]; an accepted request is missed by at most half a step (or 0.01) and passed by at most one step |
| FuelSplitLaws.SplitTotal | packages/agent/src/ofp-load-plan.ts:306-354 | for any capacities the total of an accepted split is short by at most 0.01 and half a step per unpaired tank, and over by at most one step and the same |
| FuelSplitLaws.SplitFillsUp | packages/agent/src/ofp-load-plan.ts:287-346 | in any unit a request of exactly the capacity fills every tank bigger than 0.01 |
| FuelSplitLaws.SplitIsLevel | packages/agent/src/ofp-load-plan.ts:308-333 | equal left/right tanks carry equal fuel, through the later unpaired fill, in any unit and for any capacities |
| FuelOrder.MainsFirst | packages/agent/src/ofp-load-plan.ts:189-193 | mains before AUX before TIP: a later pair carries more than one step of rounding, or anything at all unless only one of its tanks holds half a step, only when the earlier pair is at its rounded capacities |
| FuelOrder.AuxWaitsIff | packages/agent/src/ofp-load-plan.ts:308-333 | no request puts fuel in the AUX pair before the mains are full if and only if its tanks both hold half a step or neither does, or the mains hold none, or the smaller main holds no more than the smaller AUX tank |
| FuelOrder.PlanFillsMainsFirst | packages/agent/src/ofp-load-plan.ts:242-365 | the same for every accepted plan, in any unit and clamped or not |
| FuelOrder.PairsFirst | packages/agent/src/ofp-load-plan.ts:306-346 | a tank in no pair carries fuel (in whole units: more than one step) only when every mapped pair is full |
| FuelOrder.ProfileOrder | packages/agent/src/ofp-load-plan.ts:336-346 | among those tanks one carries fuel only when every earlier one of the profile is full |
| FuelOrder.CrumbReachesAux | packages/agent/src/ofp-load-plan.ts:195-200 | why a step is allowed for: 60.0098 gallons leave 0.01 in the right AUX tank beside mains of 30 out of 50 |
| FuelSplitLaws.UnitsRoundTrip | packages/agent/src/ofp-load-plan.ts:270-285 | converting pounds to tank units and back changes nothing |
| FuelSplitLaws.OneUnitWeighs | packages/agent/src/ofp-load-plan.ts:270-285 | what a gallon, a pound, a kilogram and 3.785411784 liters weigh |
| FuelSplitLaws.UnitGrids | packages/agent/src/ofp-load-plan.ts:195-200 | gallons and liters are kept to the hundredth, pounds and kilograms to the unit |
| FuelSplitLaws.DistributeAcceptsIff | packages/agent/src/ofp-load-plan.ts:287-354 | for capacities on the grid of any unit: accepted if and only if the request is outside the clamp band and does not fall short, which it can only where every tank is in a pair |
| FuelSplitLaws.FallsShortIff | packages/agent/src/ofp-load-plan.ts:308-354 | with equal sides a fitting request falls short if and only if every tank is in a pair and twice the rounded half is more than 0.01 below it |
| FuelSplitLaws.EqualSidesAcceptIff | packages/agent/src/ofp-load-plan.ts:287-354 | so for equal sides acceptance is one comparison on the request, in pounds and kilograms too |
| FuelSplitLaws.WholeRequestIsAccepted | packages/agent/src/ofp-load-plan.ts:287-354 | a request on the grid of its unit that fits is always accepted |
| FuelSplitLaws.SpareTankAcceptsIff | packages/agent/src/ofp-load-plan.ts:287-354 | in hundredths, or with room in one unpaired tank, only the capacity and the clamp band decide |
| FuelSplitLaws.DistributeDelivers | packages/agent/src/ofp-load-plan.ts:242-365 | what an accepted request gets, in any unit: bounds, the total to half a step short or one step over, exact fill when clamped, clamped only above capacity + 0.05 |
| ResidualFloors.AbsorbFuelResidualFloors | packages/agent/src/ofp-load-plan.ts:1527-1545 | the loop over the live tanks computes `AbsorbAll` |
| ResidualFloors.AbsorbAt | packages/agent/src/ofp-load-plan.ts:1535-1543 | exactly the tanks planned at most 0.5 with a live rest of more than 0.5 and at most the limit are raised to it |
| ResidualFloors.AbsorbSum | packages/agent/src/ofp-load-plan.ts:1534-1544 | the total grows by exactly what is reported as added |
| ResidualFloors.RedistributeAroundResidualFloors | packages/agent/src/ofp-load-plan.ts:1565-1633 | the drain loops and the early exits compute `Redistributed` |
| ResidualFloors.DrainOnePair | packages/agent/src/ofp-load-plan.ts:1587-1616 | one turn of the pair loop |
| ResidualFloors.DrainRest | packages/agent/src/ofp-load-plan.ts:1618-1630 | the loop over the remaining tanks |
| ResidualFloors.PairLevelsFit | packages/agent/src/ofp-load-plan.ts:1599-1611 | draining a pair stays within the tanks and takes the asked amount to 0.01 |
| ResidualFloors.RedistributeBalances | packages/agent/src/ofp-load-plan.ts:1560-1633 | the total changes by what is reported as added less what is reported as reduced, to half a hundredth per stored quantity; it ends within 0.05 and that rounding of the planned total, or every inner tank planned above 0.5 is at most 0.05; nothing negative; reduced is at most added |
| ResidualFloors.FloorsStay | packages/agent/src/ofp-load-plan.ts:1583-1613 | absorbed floors are kept to half a hundredth |
| ResidualFloors.OuterTanksStay | packages/agent/src/ofp-load-plan.ts:1587-1622 | AUX/TIP tanks that carried planned fuel are not touched |
| ResidualFloors.SmallPlansStay | packages/agent/src/ofp-load-plan.ts:1583-1622 | a tank with no more than 0.5 planned is never drained: it ends at its plan or its floor, to half a hundredth |
| ResidualOrder.RedistributeDrainsMainsFirst | packages/agent/src/ofp-load-plan.ts:1587-1630 | a tank is drained only when the mains have at most 0.05 of planned fuel left, and one outside both pairs only when the centre tanks have |
| ResidualOrder.KeysInOrder | packages/agent/src/ofp-load-plan.ts:1618-1630 | the last loop takes the tanks in key order |
| ResidualOrder.SidesGiveAlike | packages/agent/src/ofp-load-plan.ts:1597-1611 | both sides of a drained pair give the same, or the one that gives less is empty |
| CargoRounds.AllocateCargoRoundPerSeat | packages/agent/src/ofp-load-plan.ts:1034-1098 | target choice, placement loop and balancing compute `Placed` and `AfterRound` |
| CargoRounds.PlaceOnTargets | packages/agent/src/ofp-load-plan.ts:1083-1092 | the placement loop |
| CargoRounds.LongitudinalHalfIndexes | packages/agent/src/ofp-load-plan.ts:1160-1179 | the half by arm, rows completed |
| CargoRounds.ExpandRows | packages/agent/src/ofp-load-plan.ts:1173-1177 | the loop that completes rows |
| CargoRounds.HalvesKeepRowsWhole | packages/agent/src/ofp-load-plan.ts:1058-1067 | a biased round takes both seats of a row or none |
| RoundDirection.ChosenAreForemost | packages/agent/src/ofp-load-plan.ts:1160-1179 | a biased half takes a station only when fewer than half of the stations lie beyond it, or beyond a row mate |
| RoundDirection.LeftOutIsBehind | packages/agent/src/ofp-load-plan.ts:1160-1179 | and leaves one out only when half of the stations are chosen at or beyond it |
| RoundDirection.RoundLoadsForemost | packages/agent/src/ofp-load-plan.ts:1050-1092 | so before balancing a biased round adds nothing anywhere else |
| RoundDirection.LighterFirstServed | packages/agent/src/ofp-load-plan.ts:1078-1092 | when the budget is short, a target that gains has every lighter target served in full |
| CargoRounds.RoundAddsWhatItReports | packages/agent/src/ofp-load-plan.ts:1078-1097 | the total grows by exactly movedLb, at most the rounded budget |
| CargoRounds.RoundStepLimit | packages/agent/src/ofp-load-plan.ts:1083-1092 | movedLb is at most the rounded step times the number of targets |
| CargoRounds.RoundBounds | packages/agent/src/ofp-load-plan.ts:1085-1096 | caps hold, other stations untouched, whole pounds stay whole |
| CargoRounds.RoundStallsIff | packages/agent/src/ofp-load-plan.ts:1046-1092 | movedLb is 0 if and only if there is nothing to place, no step, no station, or every target is full |
| CargoRounds.RepeatedRoundsFill | packages/agent/src/ofp-load-plan.ts:1034-1098 | equal rounds repeated until one stalls terminate with min(budget, room) placed |
| CargoPlan.DistributeCargoAcrossStations | packages/agent/src/ofp-load-plan.ts:592-796 | seeding, capacities, clamping and the fill stages compute `Distributed` |
| CargoPlan.SeedStations | packages/agent/src/ofp-load-plan.ts:636-662 | the seeding loop over the profile |
| CargoPlan.FillSeats | packages/agent/src/ofp-load-plan.ts:715-744 | the seat stage of a passenger cabin, which SeatStage says places min(cargo, seat room) and leaves the rest for the baggage |
| CargoPlan.FillBags | packages/agent/src/ofp-load-plan.ts:746-776 | baggage, or seats when no baggage is mapped, which BagsPlace says places all of the rest |
| CargoPlanLaws.SeedSum | packages/agent/src/ofp-load-plan.ts:636-662 | seeds are the crew floor plus the preserved weights |
| CargoPlanLaws.CargoIsConserved | packages/agent/src/ofp-load-plan.ts:592-796 | stations sum = crew seed + preserved weights + min(rounded cargo, fill capacity) |
| CargoPlanLaws.CargoRespectsCaps | packages/agent/src/ofp-load-plan.ts:664-776 | every seat and baggage station within its soft and structural cap, every other station at its seed |
| CargoPlanLaws.StationLimits | packages/agent/src/ofp-load-plan.ts:636-705 | the limits in pounds: 300 on every seat of a cabin with passengers and 50 on its baggage stations, 750 on freighter crew seats, the structural limit everywhere; service and unmapped stations keep their live weight, cut to their limit and rounded |
| CargoPlanLaws.PreservedHas | packages/agent/src/ofp-load-plan.ts:636-662 | the stations reported as preserved are the service stations, and those without a role that have a live reading |
| CargoPlanLaws.GaSeatsComeFirst | packages/agent/src/ofp-load-plan.ts:715-764 | any baggage weight in a passenger cabin means every seat is at its soft cap |
| CargoPlanLaws.FreighterCrewStays | packages/agent/src/ofp-load-plan.ts:640-765 | with baggage mapped, freighter crew stays at min(170, maxLoad) |
| CargoReport.ReportIsLoadedPlusLoss | packages/agent/src/ofp-load-plan.ts:778-793 | cargoPlacedLb is the loaded cargo plus what some movable stations lost |
| CargoReport.ReportIsExactIff | packages/agent/src/ofp-load-plan.ts:778-793 | for one cargo the report is never below the loaded cargo, and equal to it if and only if no movable station ends below its start |
| CargoReport.ReportIsAlwaysExactIff | packages/agent/src/ofp-load-plan.ts:715-790 | a plan reports every cargo exactly if and only if it is a freighter or no row joins a crew seat whose limit is at least 2 lb (or 1 lb and the higher index) with a passenger seat that has room |
| CargoReport.ReportIsExact | packages/agent/src/ofp-load-plan.ts:736-793 | freighters, and cabins in which no row takes from the crew, report exactly the loaded cargo |
| CargoReport.MixedRowOverReports | packages/agent/src/ofp-load-plan.ts:736-793 | such a row and no cargo at all: the crew seat drops below its floor and cargo is reported that was never loaded |
| CargoReport.PilotSeatIsTaken | packages/agent/src/ofp-load-plan.ts:715-790 | a cabin of one pilot and one passenger seat does it |
| CargoReport.FreighterBaggage | packages/agent/src/ofp-load-plan.ts:746-796 | a freighter loads exactly the rounded cargo up to the baggage capacity it reports, all of it on baggage stations |
| CargoReport.CabinBaggage | packages/agent/src/ofp-load-plan.ts:685-700 | with passengers that capacity is 50 lb, or less, per known baggage station, and no plan loads more |
| CargoCeiling.GaCeilingAgreesIff | packages/agent/src/ofp-load-plan.ts:93-116 | with a known passenger seat the unrounded ceiling is never below the fill capacity, and equal to it if and only if every role station is known with a positive limit |
| CargoCeiling.FreighterCeilingAgreesIff | packages/agent/src/ofp-load-plan.ts:118-120 | without listed passengers and with a known baggage station the same, if and only if every baggage station is known and has a positive index or no capacity |
| CeilingRoles.CeilingAgreesIff | packages/agent/src/ofp-load-plan.ts:64-128 | for every role map the ceiling equals the fill capacity if and only if the roles agree, with the exact sum to compare where the market sees a GA cabin or no cargo role and the fill a freighter |
| CeilingRoles.FreighterFill | packages/agent/src/ofp-load-plan.ts:592-617 | without a known passenger seat the fill counts baggage limits, or else crew seats up to 750 lb above their floor |
| CeilingRoles.FreighterCounts | packages/agent/src/ofp-load-plan.ts:93-127 | what the market counts then: 300 lb per unknown passenger seat, 500 lb per unknown baggage station, or every station that is not crew |
| CeilingRoles.CrewAloneDisagrees | packages/agent/src/ofp-load-plan.ts:93-127 | one crew seat of 300 lb: ceiling 0, capacity 130 |
| CeilingRoles.UnknownPaxAgrees | packages/agent/src/ofp-load-plan.ts:93-127 | one crew seat of 600 lb and an unknown passenger seat: both 430 |
| CeilingRoles.SealedSeatDisagrees | packages/agent/src/ofp-load-plan.ts:93-127 | a crew seat and a sealed passenger seat: ceiling 430, capacity 130 |
| CargoCeiling.CeilingIsCapacity | packages/agent/src/ofp-load-plan.ts:63-120 | ceiling = fill capacity for usable roles |
| CargoCeiling.CeilingIsLoaded | packages/agent/src/ofp-load-plan.ts:56-128 | cargo up to the ceiling is loaded to the pound, anything above loads exactly the ceiling |
| LoadPlan.BuildOfpLoadPlan | packages/agent/src/ofp-load-plan.ts:1690-1793 | the sequence of steps and error exits computes `Plan` |
| LoadPlan.LimitCargo | packages/agent/src/ofp-load-plan.ts:1736-1755 | the room test and the cut compute the cargo that CargoUnderRoom bounds |
| LoadPlan.PlannedCrew | packages/agent/src/ofp-load-plan.ts:1727-1734 | the crew loop |
| LoadPlan.SeededCrewIsReserved | packages/agent/src/ofp-load-plan.ts:1727-1734 | the crew weight reserved covers the crew weight seeded |
| LoadPlan.CargoUnderRoom | packages/agent/src/ofp-load-plan.ts:1742-1754 | the limited cargo rounds to at most the room plus 0.5 lb |
| LoadKept.PlanKeepsCargo | packages/agent/src/ofp-load-plan.ts:1736-1793 | a plan keeps all of the asked cargo, or under the limit as much as comes within 25.5 lb of it |
| LoadKept.PlanLoadsWhatItKeeps | packages/agent/src/ofp-load-plan.ts:1736-1793 | and loads what it keeps, up to the capacity of the stations |
| LoadKept.PlanRefuses | packages/agent/src/ofp-load-plan.ts:1690-1766 | every reason to refuse, in order; for lack of room exactly when less than 0.5 lb fits |
| LoadKept.ReservedIsSeeded | packages/agent/src/ofp-load-plan.ts:1727-1734 | for distinct known crew stations exactly the seeded weight is reserved, at most 170 lb each |
| LoadKept.UnknownCrewIsReserved | packages/agent/src/ofp-load-plan.ts:1727-1734 | a crew station the profile does not have is reserved with 170 lb |
| LoadPlan.TakeOffWeightIsKept | packages/agent/src/ofp-load-plan.ts:1690-1793 | empty + placed fuel + all stations is at most max gross - 24.5 lb plus the preserved live mass |
| LoadPlan.TakeOffWeightIsRespected | packages/agent/src/ofp-load-plan.ts:1690-1793 | with no live mass preserved, at most max gross - 24.5 lb |
| LoadEdges.ClampBandFails | packages/agent/src/ofp-load-plan.ts:287-354 | an input in the clamp band that fails, and one above it that succeeds |
| LoadEdges.FractionalUnitsFail | packages/agent/src/ofp-load-plan.ts:308-354 | 100.8 into two tanks of 100 is refused, in pounds and in kilograms, clamped or not |
| LoadEdges.ClampingNeverHelps | packages/agent/src/ofp-load-plan.ts:287-354 | two tanks of 100.4 in pounds or kilograms refuse every request that has to be clamped |
| RowEdges.DistantArmsArePaired | packages/agent/src/ofp-load-plan.ts:1302-1314 | two stations with neighbouring indexes make a row however far apart their arms are |
| RowEdges.RowsIff | packages/agent/src/ofp-load-plan.ts:1243-1317 | which rows there are: rows by arm, the k-th unused left name with the k-th unused right name, and neighbouring unused cabin indexes after an even run |
| ArmRows.SameArmIsRow | packages/agent/src/ofp-load-plan.ts:1263-1274 | two stations alone on one arm, to the hundredth of a foot, are a row |
| ArmRows.NearArmsAreRow | packages/agent/src/ofp-load-plan.ts:1276-1286 | so are two stations between 0.05 and 2 ft apart with every other arm more than 2 ft away |
| RowEdges.DistantRowIff | packages/agent/src/ofp-load-plan.ts:1289-1314 | stations with known arms more than 2 ft apart are a row if and only if their names or their indexes make them one |
| RowEdges.ForwardMoveEndsAft | packages/agent/src/ofp-load-plan.ts:1373-1483 | a shift asked to move one pound forward reports 1 lb moved and ends with the moment 45 lb-ft lower |
| LoadEdges.RefusalIgnoresLive | packages/agent/src/ofp-load-plan.ts:1736-1755 | live weights never decide whether a plan is refused |
| LoadEdges.OverLimitIff | packages/agent/src/ofp-load-plan.ts:1743-1766 | an accepted plan passes the limit, by any slack, if and only if the preserved mass passes the room that placed fuel, crew and limited cargo leave |
| LoadEdges.LoadedGalleyIsTooHeavy | packages/agent/src/ofp-load-plan.ts:1690-1793 | an aircraft with 1000 lb live on a service station whose accepted plan weighs 2060 lb under a limit of 2000 lb |
| SimReads.PartSpells | native/SimBridgeHost/Sim/SimConnectClient.cs:1348-1354 | equal single keys mean equal variable and unit, for names without tab |
| SimReads.KeySpells | native/SimBridgeHost/Sim/SimConnectClient.cs:1279-1295 | equal batch keys mean equal padded layouts, for names without tab and newline |
| SimReads.TabsCollide | native/SimBridgeHost/Sim/SimConnectClient.cs:1350-1354 | with a tab in a name two different variables share a key |
| SimReads.BatchIsDirect | native/SimBridgeHost/Sim/SimConnectClient.cs:468-530 | padding, unpacking and truncating give the asked variables in order |
| SimReads.BatchIsSmallest | native/SimBridgeHost/Sim/SimConnectClient.cs:468-470 | a batch of up to 32 variables is registered with the smallest of the sizes 8, 16, 24 and 32 that holds it, in order and filled up with SIM ON GROUND |
| SimReads.BlankUnits | native/SimBridgeHost/Sim/SimConnectClient.cs:2058-2059 | a unit of white space only is registered as none, any other as it is |
| SimReads.ReadSimVars | packages/agent/src/named-pipe-sim-bridge.ts:143-162 | the chunk loop computes `ReadChunks` |
| SimReads.ChunksAreDirect | packages/agent/src/named-pipe-sim-bridge.ts:143-193 | chunks may fail; a read whose chunks all succeed gives every variable what a direct read would have returned when its chunk was answered |
| SimClient.SimConnectClient.ConnectDropStale | native/SimBridgeHost/Sim/SimConnectClient.cs:275-298 | first locked section of a connect |
| SimClient.SimConnectClient.ConnectOpenNew | native/SimBridgeHost/Sim/SimConnectClient.cs:309-348 | second locked section of a connect |
| SimClient.SimConnectClient.TearDownAfterRecvFailure | native/SimBridgeHost/Sim/SimConnectClient.cs:1481-1519 | the locked part of a tear-down |
| SimClient.SimConnectClient.FailAllPending | native/SimBridgeHost/Sim/SimConnectClient.cs:1979-1984 | every pending waiter still waiting is failed, in any order of entries |
| SimClient.SimConnectClient.NewPending | native/SimBridgeHost/Sim/SimConnectClient.cs:1383-1388 | a fresh waiter takes over the table entry of its request id |
| SimClient.SimConnectClient.EnsureBatchDef | native/SimBridgeHost/Sim/SimConnectClient.cs:1297-1346 | cached id, or a new id registered datum by datum and cached while there is room |
| SimClient.SimConnectClient.EnsureSingleDef | native/SimBridgeHost/Sim/SimConnectClient.cs:1348-1371 | the same for one variable |
| SimClient.SimConnectClient.ReadSection | native/SimBridgeHost/Sim/SimConnectClient.cs:427-442 | definition, request id, pending entry and request in one locked section |
| SimClient.SimConnectClient.WriteSection | native/SimBridgeHost/Sim/SimConnectClient.cs:539-555 | a write spends a definition id and leaves the caches alone |
| SimClient.SimConnectClient.OnRecvSimobjectData | native/SimBridgeHost/Sim/SimConnectClient.cs:1717-1727 | data resets the health counters and completes the waiter its entry names |
| SimClient.SimConnectClient.NoteTimeout | native/SimBridgeHost/Sim/SimConnectClient.cs:1461-1469 | the third timeout in a row tears the session down |
| SimSessionLaws.StepKeeps | native/SimBridgeHost/Sim/SimConnectClient.cs:270-555 | every step of every party keeps the session invariant, except a connect that opens a handle over an unusable one another connect has just opened |
| SimSessionLaws.RunKeeps | native/SimBridgeHost/Sim/SimConnectClient.cs:270-555 | so does every run, with any number of overlapping connects, in which no connect does that and batch names are readable |
| SimSessionLaws.CachedBatchIsExact | native/SimBridgeHost/Sim/SimConnectClient.cs:1297-1346 | in every such run a cached batch id is registered on the live handle with exactly the layout its key spells |
| SimSessionLaws.CachedSingleIsExact | native/SimBridgeHost/Sim/SimConnectClient.cs:1348-1371 | the same for single definitions |
| SimSessionLaws.NoIdIsReused | native/SimBridgeHost/Sim/SimConnectClient.cs:333-335 | ids restart with a handle, but the next definition and request ids were never used on it before, answered requests included |
| SimSessionLaws.NoWaiterIsOverwritten | native/SimBridgeHost/Sim/SimConnectClient.cs:1383-1388 | a new pending entry never replaces one whose dynamic waiter still waits |
| SimSessionLaws.CachesStaySmall | native/SimBridgeHost/Sim/SimConnectClient.cs:1338-1368 | the caches never pass 48 and 64 entries, whatever happens |
| SimSessionLaws.VerdictIsFinal | native/SimBridgeHost/Sim/SimConnectClient.cs:1393-1412 | a completed waiter is never completed again, in any state |
| SimSessionLaws.VerdictStays | native/SimBridgeHost/Sim/SimConnectClient.cs:1393-1412 | nor over any run |
| SimSessionLaws.WhoResolves | native/SimBridgeHost/Sim/SimConnectClient.cs:1393-1412 | a dynamic waiter is completed only by data for its own request, by its expiry, or by the failure a tear-down still owes |
| SimSessionLaws.OwedMeansTornDown | native/SimBridgeHost/Sim/SimConnectClient.cs:1481-1519 | such a failure is owed only after a tear-down or the time-outs that cause one |
| SimSessionLaws.DeliveredIsOwn | native/SimBridgeHost/Sim/SimConnectClient.cs:1717-1727 | data that completes a dynamic waiter is the answer to the layout its call asked for |
| SimSessionLaws.AnswersAreDirect | native/SimBridgeHost/Sim/SimConnectClient.cs:417-502 | in every such run a cached, padded, batched read returns what fresh one-variable definitions would have returned |
| SimSessionLaws.ReadIsAsked | native/SimBridgeHost/Sim/SimConnectClient.cs:427-442 | a read that captured the live handle is always asked, under a new id and with its own waiter |
| SimSessionLaws.ReadRoundTrip | native/SimBridgeHost/Sim/SimConnectClient.cs:417-502 | from request to answer: after any such run, a read answered next returns what fresh one-variable definitions would have returned |
| SimSessionLaws.PipeReadsAreDirect | packages/agent/src/named-pipe-sim-bridge.ts:143-193 | from the pipe client to the simulator: whatever such runs served the chunks, a read whose chunks all succeed returns what fresh one-variable definitions would have returned, in order |
| SimSessionLaws.ReconnectIsFresh | native/SimBridgeHost/Sim/SimConnectClient.cs:270-349 | a connect that cannot reuse the session ends with a fresh handle, empty caches, restarted counters and every older handle disposed |
| SessionReuse.ConnectKeepsIff | native/SimBridgeHost/Sim/SimConnectClient.cs:242-349 | a connect leaves handles, caches and pending requests alone if and only if the handle is live and opened, no time-out is counted, fewer than five unrecognised ids are, and no tear-down is pending; otherwise it ends with a new handle and disposes the old one |
| SessionReuse.OpenedSessionIsKept | native/SimBridgeHost/Sim/SimConnectClient.cs:242-349 | after a connect that is answered by an open, reads and answers leave the next connect without effect |
| SessionReuse.StormIsReplaced | native/SimBridgeHost/Sim/SimConnectClient.cs:242-283 | four unrecognised ids in a row are put up with; after five the next connect opens a new handle, even if data has reset the counter |
| SessionReuse.TimeoutStorm | native/SimBridgeHost/Sim/SimConnectClient.cs:1461-1469 | one or two time-outs leave the handle to the next connect, which replaces it; the third tears the session down |
| SessionReuse.OpenHeals | native/SimBridgeHost/Sim/SimConnectClient.cs:309-349 | an open makes a live session healthy unless a tear-down is pending |
| SessionReuse.LockAdmitsOne | native/SimBridgeHost/Sim/SimConnectClient.cs:417-430 | a call enters only when nobody is inside, and goes on only to a handle that has been opened |
| SessionReuse.ReadsRegisterOnce | native/SimBridgeHost/Sim/SimConnectClient.cs:1297-1371 | while there is room (48 and 64 entries) the same read finds its definition again and spends no further id |
| SimSessionLaws.LockIsFreed | native/SimBridgeHost/Sim/SimConnectClient.cs:444-450 | the waiting call can always expire and leave the operation lock |
| SimSessionLaws.CreateLeaksIff | native/SimBridgeHost/Sim/SimConnectClient.cs:309-326 | a second connect section leaves an open handle behind exactly when another connect has opened one that cannot be reused |
| SimSessionLaws.OverlapBreaksTheCache | native/SimBridgeHost/Sim/SimConnectClient.cs:270-349 | a run of two overlapping connects that caches an id the live handle has never heard of |
| WorldPulse.LocalWorldTickService.Advance | packages/career-ui/server/local-world-tick-service.ts:156-277 | the guards, the hook, the chunk loop, the coalesced save and the finally block compute `Pulse` |
| WorldPulse.LocalWorldTickService.TickAll | packages/career-ui/server/local-world-tick-service.ts:187-214 | the chunk loop with its accumulated flags |
| WorldPulse.LocalWorldTickService.SaveWhatIsDirty | packages/career-ui/server/local-world-tick-service.ts:216-234 | the save and the flag for the next pulse |
| WorldPulse.StepKeeps | packages/career-ui/server/local-world-tick-service.ts:156-277 | whatever the store lacks is covered by the flag or by the marks of the pulse in flight, over every step |
| WorldPulse.ThrowForgetsIff | packages/career-ui/server/local-world-tick-service.ts:192-210 | a throwing chunk makes the service forget a change exactly when an earlier chunk or the throwing one changed the planet and the flag is down |
| WorldPulse.HookForgetsIff | packages/career-ui/server/local-world-tick-service.ts:185-262 | a throwing hook does so exactly when it changed the planet and the flag is down |
| WorldPulse.NothingIsForgotten | packages/career-ui/server/local-world-tick-service.ts:138-139 | between pulses memory differs from the store only if the flag is up, in every run of harmless steps |
| WorldPulse.SaveFailuresAreHarmless | packages/career-ui/server/local-world-tick-service.ts:217-231 | every run in which only saves fail is such a run |
| WorldPulse.SavesSuffice | packages/career-ui/server/local-world-tick-service.ts:216-226 | a save that lands leaves nothing unsaved; landing-slice saves only when nothing needed more |
| WorldPulse.PulsesNeverOverlap | packages/career-ui/server/local-world-tick-service.ts:170-183 | however many calls of advance overlap, each with its own locals, at most one is past the guard |
| WorldPulse.CallsRefineOnePulse | packages/career-ui/server/local-world-tick-service.ts:156-277 | every run of overlapping calls is a run of one pulse at a time |
| WorldPulse.NoCallForgets | packages/career-ui/server/local-world-tick-service.ts:138-139 | so overlapping calls forget nothing either, in harmless runs |
| WorldPulse.NextPulseSavesFull | packages/career-ui/server/local-world-tick-service.ts:189-226 | after a failed save the next pulse asks for a full save |
| WorldPulse.PulseRunsWhatWasAsked | packages/career-ui/server/local-world-tick-service.ts:179-214 | chunk sizes add up to max(1, floor n) |
| WorldPulse.PulseReports | packages/career-ui/server/local-world-tick-service.ts:179-262 | what advance returns: the ticks asked for and all settled flights, or zeros when the save fails, and the flag that stays |
| WorldPulse.ChunksOfTwo | packages/career-ui/server/local-world-tick-service.ts:192-210 | cooperative pulses run in chunks of two ticks, others in one |
| WorldPulse.SaveIsNeeded | packages/career-ui/server/local-world-tick-service.ts:210-226 | a pulse saves exactly when a chunk was dirty or the flag is up, and the landing slice only exactly when no chunk needed more and the flag is down |
| WorldPulse.PulseKeeps | packages/career-ui/server/local-world-tick-service.ts:156-277 | a pulse whose chunks return ends idle and remembers what it did not save |
| WorldPulse.ThrowingChunkLosesTheFlag | packages/career-ui/server/local-world-tick-service.ts:189-262 | a dirty chunk followed by a throwing one: the change is forgotten and the next quiet pulse does not save it |
| WorldPulse.FirstChunkLosesTheFlag | packages/career-ui/server/local-world-tick-service.ts:189-262 | the same when the very first chunk changes the planet and throws |
| FloodFill.ClearBackground | packages/career-ui/scripts/knockout-commodity-bg.py:36-56 | after the queue loop the image is exactly the background cleared; the loop ends by a measure on unvisited pixels and queue length |
| FloodFill.BorderQueue | packages/career-ui/scripts/knockout-commodity-bg.py:37-43 | the start queue holds exactly border pixels, all of them |
| FloodFill.Turn | packages/career-ui/scripts/knockout-commodity-bg.py:45-56 | one turn of the loop |
| FloodFill.Visit | packages/career-ui/scripts/knockout-commodity-bg.py:49-55 | one pixel: transparent, too far, or cleared |
| FloodFill.ClearedAlpha | packages/career-ui/scripts/knockout-commodity-bg.py:45-56 | alpha is 0 afterwards if and only if it was, or a 4-connected path of fillable pixels joins the pixel to the border; colours and all other pixels unchanged |
| FloodFill.ClearedTwice | packages/career-ui/scripts/knockout-commodity-bg.py:45-56 | clearing twice is clearing once |
| FloodFill.SearchEnds | packages/career-ui/scripts/knockout-commodity-bg.py:45-56 | with an empty queue the visited fillable pixels are exactly the joined ones |
| FloodFill.FarIsDistance | packages/career-ui/scripts/knockout-commodity-bg.py:14-15 | too far means that the Euclidean distance of the colours exceeds the tolerance |
| FloodFill.BorderHasOutside | packages/career-ui/scripts/knockout-commodity-bg.py:37-43 | the border is exactly the pixels with a neighbour outside the image |
| AuthRateLimit.AuthRateLimiter.ConsumeAuthRateLimit | packages/career-ui/server/auth-rate-limit.ts:27-50 | prune, decide, record |
| AuthRateLimit.BucketIsHistory | packages/career-ui/server/auth-rate-limit.ts:18-49 | the pruned bucket and the full history agree on every window still to come |
| AuthRateLimit.AcceptedIff | packages/career-ui/server/auth-rate-limit.ts:38-49 | accepted if and only if fewer than max accepted attempts of the key lie in (now - window, now] |
| AuthRateLimit.RemainingIsExact | packages/career-ui/server/auth-rate-limit.ts:46-49 | an accepted attempt is told max less the accepted attempts of its window, itself included |
| AuthRateLimit.WindowsAreBounded | packages/career-ui/server/auth-rate-limit.ts:1-8 | no window of that length, wherever it ends, holds more than max accepted attempts |
| AuthRateLimit.OthersLeaveNoTrace | packages/career-ui/server/auth-rate-limit.ts:36-48 | the bucket of a key is what its own attempts alone leave |
| AuthRateLimit.AnswersIgnoreOthers | packages/career-ui/server/auth-rate-limit.ts:27-50 | so its answers are independent of other keys |
| AuthRateLimit.SameBucketIff | packages/career-ui/server/auth-rate-limit.ts:36-36 | two clients share a bucket if and only if their keys are equal up to blanks around them |
| AuthRateLimit.BucketOf | packages/career-ui/server/auth-rate-limit.ts:36-36 | blank keys are all one bucket |
| AuthRateLimit.RetryHintIsExact | packages/career-ui/server/auth-rate-limit.ts:39-43 | after a denial and with no accept in between, an attempt k whole seconds later is accepted if and only if k reaches retryAfterSec |
| PromiseLocks.PromiseLock.Enqueue | packages/career-ui/server/career-write-lock.ts:15-23 | a call chains on the tail and becomes the tail |
| PromiseLocks.ChainRefinesTickets | packages/career-ui/server/career-write-lock.ts:11-25 | every step of the promise chain is a step of a FIFO ticket lock |
| PromiseLocks.OneAtATime | packages/career-ui/server/career-write-lock.ts:11-25 | the running call is the oldest unsettled one; later ones cannot start |
| PromiseLocks.MutualExclusion | packages/career-ui/server/career-write-lock.ts:1-4 | at most one critical section runs, in every run |
| PromiseLocks.ThrowsNeverBlock | packages/career-ui/server/career-write-lock.ts:15-22 | while a call is unsettled the oldest can start or settle, however its predecessors ended |
| PromiseLocks.GateRefinesTickets | packages/career-ui/server/simbridge-gate.ts:19-30 | the release-function gate is the same ticket lock; a repeated release is no step |
| PromiseLocks.GateExcludes | packages/career-ui/server/simbridge-gate.ts:19-30 | in every run at most one acquire is inside, and a later one is granted only after all earlier ones were granted and released |
| PromiseLocks.RepeatedReleaseIsHarmless | packages/career-ui/server/simbridge-gate.ts:19-30 | a second release changes nothing |
| PromiseLocks.GateNeverSticks | packages/career-ui/server/ofp-load-state.ts:22-35 | the oldest unreleased acquire is inside or can be granted (the OFP lock has the same chain) |
| PromiseLocks.CountIsLargestSurplus | packages/career-ui/server/ofp-load-state.ts:9-19 | the active counter is the largest surplus of begins over ends of any stretch up to now |
| TwoLocks.StepKeeps | packages/career-ui/server/career-write-lock.ts:1-6 | queues list each client once, all but the head wait, and everyone still obeys the ordering rule |
| TwoLocks.NoDeadlock | packages/career-ui/server/career-write-lock.ts:1-6 | with world before company and no re-entry, some client can always step while one is unfinished, for any number of clients |
| TwoLocks.SchedulesEnd | packages/career-ui/server/career-write-lock.ts:1-6 | every step leaves less work, so every schedule ends |
| TwoLocks.EveryoneGetsThrough | packages/career-ui/server/career-write-lock.ts:1-6 | a schedule that cannot go on has every client done |
| TwoLocks.CrossedOrderDeadlocks | packages/career-ui/server/career-write-lock.ts:1-6 | one client that takes world while holding company can deadlock with a lawful one |
| TwoLocks.ReentryDeadlocks | packages/career-ui/server/career-write-lock.ts:1-6 | entering one lock twice deadlocks |

## Left out

- Floating point: quantities are reals, so rounding error, NaN, infinity and the finiteness filters are not modelled.
- Profiles are taken with distinct station indexes, tanks with distinct ids, and role lists without overlaps, as the
  profiles are meant to be; `Lookup` and `Dedupe` still follow the code for other input.
- CgShiftLaws.ShiftConserves: for whole-pound weights, caps and floors within the caps; with fractions balancing may change the mass, as
  EvenRowKeepsMassIff states exactly for each row, ShiftMassWithin bounds and ShiftKeepsMassIff settles for a whole profile.
- ShiftOrder.ShiftServesFirst: for no more than the one source can spare, or without deferral; beyond that a non-deferred station that
  gained may feed a deferred one in its own turn, as DeferredSeatGains shows (EveryTurnServesFirst holds for every turn).
- FuelOrder.MainsFirst: up to one step of rounding where a later pair has one tank of less than half a step; AuxWaitsIff settles the AUX pair.
- FuelOrder.PairsFirst: in pounds and kilograms a tank in no pair may get the last unit that rounding leaves of unfilled pairs.
- CgShiftLaws.ShiftMovesMoment: for rows on one arm; ShiftGoesRightIff has the exact condition.
- CargoPlanLaws.CargoIsConserved: for whole-pound load limits and disjoint roles, for the same reason.
- FuelSplitLaws.SplitPlaces: the total is bounded for capacities on the grid of their unit (hundredths, or whole pounds and
  kilograms); off the grid TanksStayInside, SplitTotal and AnyTanksAcceptIff hold instead, and a clamped request may be refused (ClampingNeverHelps).
- FuelSplitLaws.SplitFillsUp: a tank of capacity 0.01 or less may stay empty because the loop stops at 0.01.
- CgShiftLaws.ShiftIsMaximal: where allowed moves chain (UniformArmsChain, ApartArmsChain); with rows present, balancing may reopen a move.
- SimSessionLaws.RunKeeps: for runs in which no connect opens a handle over one that another connect has opened meanwhile and that cannot be
  reused, and in which batch names are free of tab and newline and single names free of tab; both conditions are shown to be needed (OverlapBreaksTheCache,
  TabsCollide). A message of the older handle that is still being dispatched when a second connect finishes is not modelled.
- SimSessionLaws.WhoResolves: for dynamic request ids; the fixed ids of snapshot and identity requests are not serialised in the code, so two
  snapshots can share an entry.
- SimSession: the simulator answers a request with the current values of the layout registered for its definition; data is
  dispatched for the newest handle only, because a connect joins the old receive loop first. Wrap-around of the 32-bit ids,
  facility lists, PMDG client data (whose fixed ids 51000 and 51001 could meet dynamic ids after some 51,000 requests),
  events and the age of the last receive are not modelled. A blank unit is recognised by ASCII white space only.
- SimReads.ReadSimVars: the one-by-one fallback for old hosts and its time budget are not modelled.
- WorldPulse: the service without a coalescing save hook, timings, logs, the background timer and other writers of the planet are not
  modelled.
- FloodFill: the sampling of the background colour, the fade pass, crop and resize are not modelled; the square root is
  modelled by comparing squares.
- AuthRateLimit: the client address from request headers is not modelled; keys are trimmed of ASCII white space.
- AuthRateLimit.AcceptedIff: for a clock that does not go back and one fixed window and maximum.
- TwoLocks: critical sections are modelled by their lock calls only; each lock is a queue, as PromiseLocks justifies.
- LateralRows, CgShift and CargoPlan read station names through two fields, side and hold, that stand for the name patterns.
- LoadPlan: the choice of fuel density, the unit of the load sheet and the fallbacks for cargo reach the model as parameters.
- Wizards, prompts, console output, argument parsing, React code, pipes, SimBrief, METAR and catalog fetches, file storage, economy and
  missions are not part of this model.
- Backoff constants, per-round fuel targets, profile scoring and other easy members are left out.
