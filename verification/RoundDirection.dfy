/** Which seats a placement round loads: the forward or the aft half by arm, whole rows of it, and the lighter
    seats first when the budget is short. */
module {:induction false} RoundDirection {
  import opened Options
  import opened Weights
  import opened Stations
  import opened Sorting
  import opened WaterFill
  import opened LateralRows
  import opened CgShift
  import opened CgShiftLaws
  import opened CargoRounds
  import opened ShiftOrder

  /** `k` lies beyond `i` on the way: strictly further forward, or further aft. */
  predicate Beyond(p: Profile, ids: seq<int>, direction: Direction, k: int, i: int) {
    if direction == Forward then Fore(p, ids, k, i) else Fore(p, ids, i, k)
  }

  /** Half of the stations, rounded up. */
  function HalfOf(ids: seq<int>): nat {
    (|ids| + 1) / 2
  }

  /** Fewer than half of the stations lie beyond this one. */
  ghost predicate Foremost(p: Profile, ids: seq<int>, direction: Direction, i: int) {
    |set k | k in ids && Beyond(p, ids, direction, k, i)| < HalfOf(ids)
  }

  // ---- the order as a set ----

  lemma OrderIsAll(p: Profile, ids: seq<int>)
    requires NoDup(ids) && forall i <- ids :: Known(p, i)
    ensures forall i :: i in ForwardFirst(p, ids) <==> i in ids
    ensures NoDup(ForwardFirst(p, ids)) && |ForwardFirst(p, ids)| == |ids|
  {
    var order := ForwardFirst(p, ids);
    OrderNoDup(p, ids);
    forall i ensures i in order <==> i in ids {
      if i in order { OrderMembers(p, ids, i); }
      if i in ids { OrderHas(p, ids, i); }
    }
    assert (set i | i in order) == (set i | i in ids);
    CardOf(order);
    CardOf(ids);
  }

  lemma CardOf(s: seq<int>)
    requires NoDup(s)
    ensures |set i | i in s| == |s|
  {
    if s != [] {
      CardOf(s[1..]);
      assert s == [s[0]] + s[1..];
      assert (set i | i in s) == {s[0]} + (set i | i in s[1..]);
    }
  }

  lemma SubsetCard(a: set<int>, b: set<int>)
    requires a <= b
    ensures |a| <= |b|
  {
    assert b == a + (b - a);
  }

  /** The half as positions: the first `h`, or the last. */
  lemma HalfHas(order: seq<int>, direction: Direction, x: nat)
    requires NoDup(order) && x < |order|
    ensures order[x] in Half(order, direction)
            <==> if direction == Forward then x < (|order| + 1) / 2 else x >= |order| - (|order| + 1) / 2
  {
    var h := (|order| + 1) / 2;
    var part := Half(order, direction);
    if order[x] in part {
      var y :| 0 <= y < |part| && part[y] == order[x];
      assert order[if direction == Forward then y else |order| - h + y] == order[x];
    }
    if direction == Forward && x < h {
      assert part[x] == order[x];
    }
    if direction == Aft && x >= |order| - h {
      assert part[x - (|order| - h)] == order[x];
    }
  }

  /** A station of the half is foremost. */
  lemma HalfIsForemost(p: Profile, ids: seq<int>, direction: Direction, i: int)
    requires NoDup(ids) && (forall k <- ids :: Known(p, k)) && i in Half(ForwardFirst(p, ids), direction)
    ensures i in ids && Foremost(p, ids, direction, i)
  {
    var order := ForwardFirst(p, ids);
    OrderIsAll(p, ids);
    var x :| 0 <= x < |order| && order[x] == i;
    HalfHas(order, direction, x);
    var beyond := set k | k in ids && Beyond(p, ids, direction, k, i);
    var part := if direction == Forward then order[..x] else order[x + 1..];
    forall k <- beyond ensures k in part {
      var y :| 0 <= y < |order| && order[y] == k;
      if direction == Forward {
        ForeIsEarlier(p, ids, y, x);
        assert part[y] == k;
      } else {
        ForeIsEarlier(p, ids, x, y);
        assert part[y - x - 1] == k;
      }
    }
    CardOf(part);
    SubsetCard(beyond, (set k | k in part));
  }

  /** A biased round takes a station only when it, or a row mate of it, is foremost. */
  lemma ChosenAreForemost(p: Profile, ids: seq<int>, direction: Direction, i: int)
    requires NoDup(ids) && (forall k <- ids :: Known(p, k)) && i in HalfIndexes(p, ids, direction)
    ensures i in ids
    ensures Foremost(p, ids, direction, i)
            || exists k :: k in ids && RowMates(p, ids, i, k) && Foremost(p, ids, direction, k)
  {
    var order := ForwardFirst(p, ids);
    var start := set k | k in Half(order, direction);
    WithoutHas(order, Expand(start, Rows(p, ids)), i);
    OrderIsAll(p, ids);
    RowsAreSound(p, ids);
    ExpandHas(start, Rows(p, ids), i);
    if i in start {
      HalfIsForemost(p, ids, direction, i);
    } else {
      var r :| r in Rows(p, ids) && (r.0 == i || r.1 == i) && (r.0 in start || r.1 in start);
      var k := if r.0 == i then r.1 else r.0;
      assert RowMates(p, ids, i, k);
      HalfIsForemost(p, ids, direction, k);
    }
  }

  /** And it leaves one out only when half of the stations are chosen at or beyond it. */
  lemma LeftOutIsBehind(p: Profile, ids: seq<int>, direction: Direction, i: int)
    requires NoDup(ids) && (forall k <- ids :: Known(p, k)) && i in ids && i !in HalfIndexes(p, ids, direction)
    ensures |set k | k in HalfIndexes(p, ids, direction) && !Beyond(p, ids, direction, i, k)| >= HalfOf(ids)
  {
    var order := ForwardFirst(p, ids);
    var half := Half(order, direction);
    OrderIsAll(p, ids);
    var x :| 0 <= x < |order| && order[x] == i;
    assert i !in half by {
      if i in half {
        HalfIsChosen(p, ids, direction, i);
      }
    }
    HalfHas(order, direction, x);
    var chosen := set k | k in HalfIndexes(p, ids, direction) && !Beyond(p, ids, direction, i, k);
    forall k <- half ensures k in chosen {
      var y :| 0 <= y < |order| && order[y] == k;
      HalfHas(order, direction, y);
      HalfIsChosen(p, ids, direction, k);
      if Beyond(p, ids, direction, i, k) {
        if direction == Forward {
          ForeIsEarlier(p, ids, x, y);
        } else {
          ForeIsEarlier(p, ids, y, x);
        }
      }
    }
    HalfNoDup(order, direction);
    CardOf(half);
    SubsetCard((set k | k in half), chosen);
  }

  lemma HalfNoDup(order: seq<int>, direction: Direction)
    requires NoDup(order)
    ensures NoDup(Half(order, direction)) && |Half(order, direction)| == (|order| + 1) / 2
  {
  }

  lemma HalfIsChosen(p: Profile, ids: seq<int>, direction: Direction, i: int)
    requires i in Half(ForwardFirst(p, ids), direction)
    ensures i in HalfIndexes(p, ids, direction)
  {
    var order := ForwardFirst(p, ids);
    var start := set k | k in Half(order, direction);
    RowsAreSound(p, ids);
    ExpandHas(start, Rows(p, ids), i);
    WithoutHas(order, Expand(start, Rows(p, ids)), i);
  }

  // ---- the round ----

  /** A biased round adds nothing outside the foremost stations and their row mates. */
  lemma RoundLoadsForemost(w: Load, p: Profile, ids: seq<int>, perSeatLb: real, direction: Direction, budgetLb: real, softMax: Load, i: int)
    requires NoDup(ids) && (forall k <- ids :: Known(p, k))
    requires At(Placed(w, p, ids, perSeatLb, Toward(direction), budgetLb, softMax).w, i) != At(w, i)
    ensures i in ids
    ensures Foremost(p, ids, direction, i)
            || exists k :: k in ids && RowMates(p, ids, i, k) && Foremost(p, ids, direction, k)
  {
    var ts := SortBy(RoundTargets(p, ids, Toward(direction)), LighterFirst(w));
    var start := Placement(w, Max(0.0, RoundLb(budgetLb)), 0.0);
    OrderedTargets(w, p, ids, Toward(direction));
    PlaceEachBounds(start, ShiftCaps(p, softMax, ids), RoundLb(perSeatLb), ts, i);
    ChosenAreForemost(p, ids, direction, i);
  }

  lemma LightOrder(w: Load)
    ensures TotalOrder(LighterFirst(w))
  {
  }

  /** Lighter at the start of the round, or as light with the lower index. */
  predicate Lighter(w: Load, i: int, j: int) {
    At(w, i) < At(w, j) || (At(w, i) == At(w, j) && i < j)
  }

  lemma LighterPrecedes(w: Load, targets: seq<int>, i: int, j: int)
    requires i in targets && j in targets && Lighter(w, i, j)
    ensures Precedes(SortBy(targets, LighterFirst(w)), i, j)
  {
    var le := LighterFirst(w);
    assert !le(j, i);
    LightOrder(w);
    SortedPrecedes(targets, le, i, j);
  }

  lemma SortedPrecedes(targets: seq<int>, le: (int, int) -> bool, i: int, j: int)
    requires TotalOrder(le) && i in targets && j in targets && !le(j, i)
    ensures Precedes(SortBy(targets, le), i, j)
  {
    var ts := SortBy(targets, le);
    SortOrders(targets, le);
    SortHas(targets, le, i);
    SortHas(targets, le, j);
    var a :| 0 <= a < |ts| && ts[a] == i;
    var b :| 0 <= b < |ts| && ts[b] == j;
    assert le(j, j) || le(j, j);
    assert a < b;
  }

  /** What a seat takes when the budget does not matter. */
  function FullTake(w: Load, cap: Load, perSeat: real, i: int): real {
    Min(perSeat, Max(0.0, At(cap, i) - At(w, i)))
  }

  lemma NothingLeft(s: Placement, cap: Load, perSeat: real, ts: seq<int>)
    requires s.budget <= 0.0
    ensures PlaceEach(s, cap, perSeat, ts) == s
    decreases ts
  {
    if ts != [] {
      NothingLeft(s, cap, perSeat, ts[1..]);
    }
  }

  /** A seat that gains has every seat before it served in full. */
  lemma ServedInOrder(s: Placement, cap: Load, perSeat: real, ts: seq<int>, i: int, j: int)
    requires NoDup(ts) && Precedes(ts, i, j) && perSeat > 0.0
    requires At(PlaceEach(s, cap, perSeat, ts).w, j) > At(s.w, j)
    ensures At(PlaceEach(s, cap, perSeat, ts).w, i) == At(s.w, i) + FullTake(s.w, cap, perSeat, i)
    decreases ts
  {
    PrecedesTail(ts, i, j);
    assert ts == [ts[0]] + ts[1..];
    var t := PlaceOne(s, cap, perSeat, ts[0]);
    if Precedes(ts[1..], i, j) {
      assert i in ts[1..] && j in ts[1..];
      ServedInOrder(t, cap, perSeat, ts[1..], i, j);
    } else {
      assert i !in ts[1..];
      PlaceEachBounds(t, cap, perSeat, ts[1..], i);
      if t.budget <= 0.0 {
        NothingLeft(t, cap, perSeat, ts[1..]);
      }
    }
  }

  /** When the budget is short the lighter seats are served first: a target that gains has every lighter
      target served in full. */
  lemma LighterFirstServed(w: Load, p: Profile, ids: seq<int>, perSeatLb: real, bias: Bias, budgetLb: real, softMax: Load, i: int, j: int)
    requires NoDup(ids) && i in RoundTargets(p, ids, bias) && j in RoundTargets(p, ids, bias) && Lighter(w, i, j)
    requires At(Placed(w, p, ids, perSeatLb, bias, budgetLb, softMax).w, j) > At(w, j)
    ensures At(Placed(w, p, ids, perSeatLb, bias, budgetLb, softMax).w, i)
         == At(w, i) + FullTake(w, ShiftCaps(p, softMax, ids), RoundLb(perSeatLb), i)
  {
    var targets := RoundTargets(p, ids, bias);
    var start := Placement(w, Max(0.0, RoundLb(budgetLb)), 0.0);
    OrderedTargets(w, p, ids, bias);
    LighterPrecedes(w, targets, i, j);
    ServedInOrder(start, ShiftCaps(p, softMax, ids), RoundLb(perSeatLb), SortBy(targets, LighterFirst(w)), i, j);
  }

  /** An unbiased round may serve every station. */
  lemma EqualServesAll(p: Profile, ids: seq<int>, i: int)
    requires NoDup(ids) && forall k <- ids :: Known(p, k)
    ensures i in RoundTargets(p, ids, Equal) <==> i in ids
  {
    OrderIsAll(p, ids);
  }
}
