/** Where a residual floor is taken from: the mains before the centre tanks, those before the others, and half
    from each side of a pair while it lasts. */
module {:induction false} ResidualOrder {
  import opened Weights
  import opened ResidualFloors

  // ---- the two sides of a pair ----

  /** Both sides give the same, or the one that gives less is empty. */
  lemma SidesGiveAlike(left: real, right: real, take: real)
    requires left >= 0.0 && right >= 0.0 && 0.0 < take <= left + right
    ensures var levels := PairLevels(left, right, take, true, true);
            && (left - levels.0 > right - levels.1 ==> levels.1 == 0.0)
            && (right - levels.1 > left - levels.0 ==> levels.0 == 0.0)
  {
  }

  /** A side without planned fuel gives nothing, and the other one all that it can. */
  lemma OneSideGives(left: real, right: real, take: real)
    requires left >= 0.0 && right >= 0.0 && take > 0.02
    ensures take <= left ==> PairLevels(left, right, take, true, false) == (left - take, right)
    ensures take <= right ==> PairLevels(left, right, take, false, true) == (left, right - take)
  {
  }

  // ---- a drained pair ----

  /** What the drainable tanks of a pair still hold. */
  function Left(r: Record, planned: Record, left: string, right: string): real {
    (if CanDrain(planned, left) then Get(r, left) else 0.0) + (if CanDrain(planned, right) then Get(r, right) else 0.0)
  }

  /** After its turn a pair has nothing more to give, or nothing more is in excess. */
  lemma PairDrained(d: Drain, planned: Record, left: string, right: string, excess: real)
    requires Accounts(d, planned, excess) && left != right
    ensures var e := DrainPair(d, planned, (left, right));
            e.excess <= 0.05 || Left(e.tanks, planned, left, right) <= 0.05
  {
    if !SkipsPair(d, planned, (left, right)) {
      var l, r := Get(d.tanks, left), Get(d.tanks, right);
      var take := Min(d.excess, Drainable(d, planned, (left, right)));
      var levels := PairLevels(l, r, take, CanDrain(planned, left), CanDrain(planned, right));
      PairLevelsFit(l, r, take, CanDrain(planned, left), CanDrain(planned, right));
      RoundsClose(levels.0);
      RoundsClose(levels.1);
    }
  }

  lemma SpentTanks(d: Drain, planned: Record, ids: seq<string>)
    requires d.excess <= 0.05
    ensures DrainTanks(d, planned, ids) == d
    decreases ids
  {
    if ids != [] {
      SpentTanks(d, planned, ids[1..]);
    }
  }

  /** Names of the tanks that are drained in pairs. */
  lemma PairNames()
    ensures DRAIN_PAIRS == [("LEFT_MAIN", "RIGHT_MAIN"), ("CENTER", "CENTER2")]
    ensures "LEFT_MAIN" != "RIGHT_MAIN" && "CENTER" != "CENTER2"
    ensures "LEFT_MAIN" !in {"CENTER", "CENTER2"} && "RIGHT_MAIN" !in {"CENTER", "CENTER2"}
  {
    assert "LEFT_MAIN"[0] == 'L' && "RIGHT_MAIN"[0] == 'R' && "CENTER"[0] == 'C' && |"CENTER"| != |"CENTER2"|;
    assert "CENTER2"[0] == 'C';
  }

  lemma TwoTurns(start: Drain, planned: Record)
    ensures DrainPairs(start, planned, DRAIN_PAIRS)
         == DrainPair(DrainPair(start, planned, ("LEFT_MAIN", "RIGHT_MAIN")), planned, ("CENTER", "CENTER2"))
  {
    PairNames();
    var pairs := DRAIN_PAIRS;
    assert pairs[1..] == [("CENTER", "CENTER2")] && pairs[1..][1..] == [];
    var d := DrainPair(start, planned, pairs[0]);
    assert DrainPairs(d, planned, pairs[1..]) == DrainPairs(DrainPair(d, planned, pairs[1..][0]), planned, pairs[1..][1..]);
  }

  lemma PairElsewhere(d: Drain, planned: Record, left: string, right: string, id: string)
    requires id != left && id != right
    ensures Get(DrainPair(d, planned, (left, right)).tanks, id) == Get(d.tanks, id)
  {
  }

  /** A pair that has nothing more to give keeps what it has in the last loop. */
  lemma DrainedStays(d: Drain, planned: Record, ids: seq<string>, left: string, right: string)
    requires NonNegative(d.tanks) && Left(d.tanks, planned, left, right) <= 0.05
    ensures Left(DrainTanks(d, planned, ids).tanks, planned, left, right) <= 0.05
  {
    assert Get(d.tanks, left) >= 0.0 && Get(d.tanks, right) >= 0.0;
    if CanDrain(planned, left) { DrainTanksStays(d, planned, ids, left); }
    if CanDrain(planned, right) { DrainTanksStays(d, planned, ids, right); }
  }

  // ---- the whole drain ----

  /** A tank other than the mains is drained only when the mains have no planned fuel left to give. */
  lemma MainsDrainFirst(planned: Record, start: Drain, excess: real, id: string)
    requires Accounts(start, planned, excess) && id != "LEFT_MAIN" && id != "RIGHT_MAIN"
    requires Get(DrainFrom(planned, start, DRAIN_PAIRS).tanks, id) != Get(start.tanks, id)
    ensures Left(DrainFrom(planned, start, DRAIN_PAIRS).tanks, planned, "LEFT_MAIN", "RIGHT_MAIN") <= 0.05
  {
    PairNames();
    TwoTurns(start, planned);
    var d := DrainPair(start, planned, ("LEFT_MAIN", "RIGHT_MAIN"));
    var e := DrainPair(d, planned, ("CENTER", "CENTER2"));
    PairDrained(start, planned, "LEFT_MAIN", "RIGHT_MAIN", excess);
    PairElsewhere(start, planned, "LEFT_MAIN", "RIGHT_MAIN", id);
    DrainPairAccounts(start, planned, ("LEFT_MAIN", "RIGHT_MAIN"), excess);
    DrainPairAccounts(d, planned, ("CENTER", "CENTER2"), excess);
    if d.excess <= 0.05 {
      SpentTanks(d, planned, d.tanks.keys);
    } else {
      PairElsewhere(d, planned, "CENTER", "CENTER2", "LEFT_MAIN");
      PairElsewhere(d, planned, "CENTER", "CENTER2", "RIGHT_MAIN");
      DrainedStays(e, planned, e.tanks.keys, "LEFT_MAIN", "RIGHT_MAIN");
    }
  }

  /** And a tank outside both pairs only when the centre tanks have none either. */
  lemma PairsDrainFirst(planned: Record, start: Drain, excess: real, id: string)
    requires Accounts(start, planned, excess)
    requires id !in {"LEFT_MAIN", "RIGHT_MAIN", "CENTER", "CENTER2"}
    requires Get(DrainFrom(planned, start, DRAIN_PAIRS).tanks, id) != Get(start.tanks, id)
    ensures Left(DrainFrom(planned, start, DRAIN_PAIRS).tanks, planned, "CENTER", "CENTER2") <= 0.05
  {
    PairNames();
    TwoTurns(start, planned);
    var d := DrainPair(start, planned, ("LEFT_MAIN", "RIGHT_MAIN"));
    var e := DrainPair(d, planned, ("CENTER", "CENTER2"));
    DrainPairAccounts(start, planned, ("LEFT_MAIN", "RIGHT_MAIN"), excess);
    PairDrained(d, planned, "CENTER", "CENTER2", excess);
    DrainPairAccounts(d, planned, ("CENTER", "CENTER2"), excess);
    PairElsewhere(start, planned, "LEFT_MAIN", "RIGHT_MAIN", id);
    PairElsewhere(d, planned, "CENTER", "CENTER2", id);
    if e.excess <= 0.05 {
      SpentTanks(e, planned, e.tanks.keys);
    } else {
      DrainedStays(e, planned, e.tanks.keys, "CENTER", "CENTER2");
    }
  }

  /** For the whole redistribution: whatever is taken from another tank, the mains gave theirs before. */
  lemma RedistributeDrainsMainsFirst(planned: Record, live: Record, maxFloor: real, id: string)
    requires Valid(planned) && NonNegative(planned) && Valid(live) && id != "LEFT_MAIN" && id != "RIGHT_MAIN"
    requires var a := AbsorbAll(planned, live, maxFloor);
             a.added > 0.05 && Get(Redistributed(planned, live, maxFloor).tanks, id) != Get(a.tanks, id)
    ensures Left(Redistributed(planned, live, maxFloor).tanks, planned, "LEFT_MAIN", "RIGHT_MAIN") <= 0.05
    ensures id !in {"CENTER", "CENTER2"} ==> Left(Redistributed(planned, live, maxFloor).tanks, planned, "CENTER", "CENTER2") <= 0.05
  {
    var a := AbsorbAll(planned, live, maxFloor);
    AbsorbSum(Absorption(planned, 0.0), live, live.keys, maxFloor);
    var start := DrainStart(planned, a);
    MainsDrainFirst(planned, start, a.added, id);
    if id !in {"CENTER", "CENTER2"} {
      PairsDrainFirst(planned, start, a.added, id);
    }
  }

  /** The last loop takes the tanks in the order of their keys. */
  lemma KeysInOrder(d: Drain, planned: Record, ids: seq<string>, k: nat, l: nat)
    requires NoDup(ids) && k < l < |ids| && CanDrain(planned, ids[k]) && !Outer(ids[k])
    requires Get(DrainTanks(d, planned, ids).tanks, ids[l]) != Get(d.tanks, ids[l])
    ensures Get(DrainTanks(d, planned, ids).tanks, ids[k]) <= 0.05
    decreases ids
  {
    var e := DrainTank(d, planned, ids[0]);
    assert ids[1..][l - 1] == ids[l] && (k > 0 ==> ids[1..][k - 1] == ids[k]);
    assert ids[0] != ids[l];
    if k > 0 {
      KeysInOrder(e, planned, ids[1..], k - 1, l - 1);
    } else if e.excess <= 0.05 {
      SpentTanks(e, planned, ids[1..]);
    } else {
      RoundsClose(0.0);
      DrainTanksStays(e, planned, ids[1..], ids[0]);
    }
  }
}
