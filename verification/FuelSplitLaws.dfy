/** What the fuel split promises, in whatever unit the tanks are kept: bounds per tank, the total to
    one grid step, equal sides, an exact fill when clamped, and exactly when it gives up. */
module {:induction false} FuelSplitLaws {
  import opened Options
  import opened Weights
  import opened LoadErrors
  import opened FuelSplit

  ghost predicate TankTable(cap: Quantities, ids: seq<string>) {
    && NoDup(ids)
    && (forall i <- ids :: i in cap && 0.0 <= cap[i])
    && (forall i <- cap :: i in ids)
  }

  ghost predicate GridTable(cap: Quantities, ids: seq<string>, u: Unit) {
    TankTable(cap, ids) && forall i <- ids :: i in cap && OnGrid(cap[i], u)
  }

  /** No tank is below empty or above its rounded capacity, tanks not used yet are empty, and at most one
      grid step is overdrawn. */
  ghost predicate Bounded(f: Fill, cap: Quantities, ids: seq<string>, u: Unit) {
    && (forall i <- ids :: i in f.qty && i in cap && 0.0 <= f.qty[i] <= RoundFuel(cap[i], u) && (i in f.used || f.qty[i] == 0.0))
    && f.remaining >= -Step(u)
  }

  ghost predicate AllFull(f: Fill, cap: Quantities, ids: seq<string>) {
    forall i <- ids :: i in f.used ==> Qty(f.qty, i) == Qty(cap, i)
  }

  ghost predicate Fresh(f: Fill, pair: Pair) {
    pair.0 != pair.1 && pair.0 !in f.used && pair.1 !in f.used
  }

  predicate Present(cap: Quantities, pair: Pair) {
    pair.0 in cap && pair.1 in cap && cap[pair.0] + cap[pair.1] > 0.0
  }

  ghost predicate DisjointPairs(pairs: seq<Pair>) {
    && (forall p <- pairs :: p.0 != p.1)
    && forall j, k :: 0 <= j < k < |pairs| ==>
         pairs[j].0 != pairs[k].0 && pairs[j].0 != pairs[k].1 && pairs[j].1 != pairs[k].0 && pairs[j].1 != pairs[k].1
  }

  // ---- one pair ----

  /** Both shares stay inside the tanks; what was taken is off by at most a grid step, and a pair that
      is asked for all it holds is filled up. */
  lemma PairShares(remaining: real, leftCap: real, rightCap: real, u: Unit)
    returns (left: real, right: real)
    requires 0.0 <= leftCap && 0.0 <= rightCap && -Step(u) <= remaining
    ensures var s := Shares(Min(remaining, leftCap + rightCap), leftCap, rightCap);
            left == RoundFuel(s.0, u) && right == RoundFuel(s.1, u)
    ensures 0.0 <= left <= RoundFuel(leftCap, u) && 0.0 <= right <= RoundFuel(rightCap, u)
    ensures leftCap == rightCap ==> left == right
    ensures -Step(u) <= remaining - (left + right)
    ensures if leftCap + rightCap <= remaining then left == RoundFuel(leftCap, u) && right == RoundFuel(rightCap, u)
            else remaining - (left + right) < Step(u)
  {
    var s := Shares(Min(remaining, leftCap + rightCap), leftCap, rightCap);
    left, right := RoundFuel(s.0, u), RoundFuel(s.1, u);
    RoundInside(s.0, leftCap, u);
    RoundInside(s.1, rightCap, u);
    RoundGrid(s.0, u);
    RoundGrid(s.1, u);
  }

  /** The same for the fill: quantities, books and what is used. */
  lemma PairTurn(f: Fill, cap: Quantities, u: Unit, pair: Pair, ids: seq<string>) returns (left: real, right: real)
    requires TankTable(cap, ids) && Bounded(f, cap, ids, u) && Fresh(f, pair) && Present(cap, pair)
    ensures var g := FillPair(f, cap, u, pair);
            && Bounded(g, cap, ids, u)
            && g.qty == f.qty[pair.0 := left][pair.1 := right] && g.remaining == f.remaining - (left + right)
            && g.used == f.used + {pair.0, pair.1}
            && g.remaining - f.remaining == Total(f.qty, ids) - Total(g.qty, ids)
    ensures cap[pair.0] == cap[pair.1] ==> left == right
    ensures if cap[pair.0] + cap[pair.1] <= f.remaining
            then left == RoundFuel(cap[pair.0], u) && right == RoundFuel(cap[pair.1], u)
            else f.remaining - (left + right) < Step(u)
  {
    assert pair.0 in ids && pair.1 in ids;
    left, right := PairShares(f.remaining, cap[pair.0], cap[pair.1], u);
    TotalUpdate(f.qty, pair.0, left, ids);
    TotalUpdate(f.qty[pair.0 := left], pair.1, right, ids);
  }

  lemma FreshAfter(f: Fill, cap: Quantities, u: Unit, pairs: seq<Pair>)
    requires pairs != [] && DisjointPairs(pairs) && forall p <- pairs :: Fresh(f, p)
    ensures DisjointPairs(pairs[1..]) && Fresh(f, pairs[0])
    ensures forall p <- pairs[1..] :: Fresh(FillPair(f, cap, u, pairs[0]), p)
  {
    assert pairs[0] in pairs;
    forall k | 0 <= k < |pairs[1..]| ensures Fresh(FillPair(f, cap, u, pairs[0]), pairs[1..][k]) {
      assert pairs[1..][k] == pairs[k + 1] && pairs[k + 1] in pairs;
    }
  }

  /** Tanks of the pairs that are filled. */
  function PairedIn(cap: Quantities, pairs: seq<Pair>): set<string> {
    if pairs == [] then {}
    else (if Present(cap, pairs[0]) then {pairs[0].0, pairs[0].1} else {}) + PairedIn(cap, pairs[1..])
  }

  /** The pairs use exactly these tanks and keep the bounds and the books, for any capacities. */
  lemma {:induction false} PairsKeepBounds(f: Fill, cap: Quantities, u: Unit, pairs: seq<Pair>, ids: seq<string>)
    requires TankTable(cap, ids) && Bounded(f, cap, ids, u)
    requires DisjointPairs(pairs) && forall p <- pairs :: Fresh(f, p)
    ensures var g := FillPairs(f, cap, u, pairs);
            && Bounded(g, cap, ids, u)
            && g.used == f.used + PairedIn(cap, pairs)
            && g.remaining - f.remaining == Total(f.qty, ids) - Total(g.qty, ids)
    decreases pairs
  {
    if pairs != [] {
      FreshAfter(f, cap, u, pairs);
      if Present(cap, pairs[0]) {
        var _, _ := PairTurn(f, cap, u, pairs[0], ids);
      }
      PairsKeepBounds(FillPair(f, cap, u, pairs[0]), cap, u, pairs[1..], ids);
    }
  }

  /** Filling pairs does not touch tanks that are in none of them. */
  lemma {:induction false} PairsElsewhere(f: Fill, cap: Quantities, u: Unit, pairs: seq<Pair>, i: string)
    requires forall p <- pairs :: p.0 != i && p.1 != i
    ensures Qty(FillPairs(f, cap, u, pairs).qty, i) == Qty(f.qty, i)
    ensures i in FillPairs(f, cap, u, pairs).used <==> i in f.used
    decreases pairs
  {
    if pairs != [] {
      assert pairs[0] in pairs;
      PairsElsewhere(FillPair(f, cap, u, pairs[0]), cap, u, pairs[1..], i);
    }
  }

  /** A pair whose sides hold the same is filled the same on both. */
  ghost predicate LevelPair(f: Fill, cap: Quantities, pair: Pair) {
    pair.0 in cap && pair.1 in cap && cap[pair.0] == cap[pair.1] ==> Qty(f.qty, pair.0) == Qty(f.qty, pair.1)
  }

  lemma {:induction false} PairsLevel(f: Fill, cap: Quantities, u: Unit, pairs: seq<Pair>, ids: seq<string>, k: nat)
    requires TankTable(cap, ids) && Bounded(f, cap, ids, u)
    requires DisjointPairs(pairs) && forall p <- pairs :: Fresh(f, p)
    requires k < |pairs|
    ensures var g := FillPairs(f, cap, u, pairs);
            LevelPair(g, cap, pairs[k]) &&
            (Present(cap, pairs[k]) ==> pairs[k].0 in g.used && pairs[k].1 in g.used)
    decreases pairs
  {
    var p := pairs[0];
    var g := FillPair(f, cap, u, p);
    FreshAfter(f, cap, u, pairs);
    if Present(cap, p) {
      var _, _ := PairTurn(f, cap, u, p, ids);
    }
    if k == 0 {
      forall e <- pairs[1..] ensures e.0 != p.0 && e.1 != p.0 && e.0 != p.1 && e.1 != p.1 {
        var j :| 0 <= j < |pairs[1..]| && pairs[1..][j] == e;
        assert e == pairs[j + 1];
      }
      PairsElsewhere(g, cap, u, pairs[1..], p.0);
      PairsElsewhere(g, cap, u, pairs[1..], p.1);
      if p.0 in cap && p.1 in cap && !Present(cap, p) {
        assert p.0 in ids && p.1 in ids;
      }
    } else {
      PairsLevel(g, cap, u, pairs[1..], ids, k - 1);
    }
  }

  // ---- the unpaired tanks ----

  ghost predicate Listed(tanks: seq<Tank>, cap: Quantities, ids: seq<string>) {
    forall t <- tanks :: t.id in ids && t.id in cap && cap[t.id] == CapacityOf(t)
  }

  ghost predicate DistinctIds(tanks: seq<Tank>) {
    forall j, k :: 0 <= j < k < |tanks| ==> tanks[j].id != tanks[k].id
  }

  /** Capacity of the tanks that are not in a given set. */
  function RestCapacity(tanks: seq<Tank>, used: set<string>): real {
    if tanks == [] then 0.0
    else (if tanks[0].id in used then 0.0 else CapacityOf(tanks[0])) + RestCapacity(tanks[1..], used)
  }

  lemma {:induction false} RestFrame(tanks: seq<Tank>, used: set<string>, more: set<string>)
    requires forall t <- tanks :: t.id in used <==> t.id in more
    ensures RestCapacity(tanks, used) == RestCapacity(tanks, more)
  {
    if tanks != [] {
      assert tanks == [tanks[0]] + tanks[1..];
      RestFrame(tanks[1..], used, more);
    }
  }

  lemma {:induction false} RestNonNegative(tanks: seq<Tank>, used: set<string>)
    requires forall t <- tanks :: CapacityOf(t) >= 0.0
    ensures RestCapacity(tanks, used) >= 0.0
  {
    if tanks != [] {
      assert tanks == [tanks[0]] + tanks[1..];
      RestNonNegative(tanks[1..], used);
    }
  }

  /** The tank loop ends with at most 0.01 over exactly when the unused tanks can hold the rest. */
  lemma {:induction false} RestAcceptsIff(f: Fill, tanks: seq<Tank>, u: Unit)
    requires DistinctIds(tanks) && forall t <- tanks :: CapacityOf(t) >= 0.0
    requires f.remaining > 0.01
    ensures FillRest(f, tanks, u).remaining <= 0.01 <==> f.remaining <= RestCapacity(tanks, f.used) + 0.01
    decreases tanks
  {
    if tanks != [] {
      var t := tanks[0];
      assert t in tanks && tanks == [t] + tanks[1..];
      if t.id in f.used {
        RestAcceptsIff(f, tanks[1..], u);
      } else {
        var g := FillOne(f, t, u);
        RestNonNegative(tanks[1..], f.used);
        if g.remaining > 0.01 {
          RestAcceptsIff(g, tanks[1..], u);
          forall e <- tanks[1..] ensures e.id in f.used <==> e.id in g.used {
            var j :| 0 <= j < |tanks[1..]| && tanks[1..][j] == e;
            assert e == tanks[j + 1];
          }
          RestFrame(tanks[1..], f.used, g.used);
        }
      }
    }
  }

  lemma {:induction false} RestKeepsBounds(f: Fill, tanks: seq<Tank>, cap: Quantities, u: Unit, ids: seq<string>)
    requires TankTable(cap, ids) && Bounded(f, cap, ids, u) && f.remaining > 0.01 && Listed(tanks, cap, ids)
    ensures Bounded(FillRest(f, tanks, u), cap, ids, u)
    ensures forall i <- f.used :: i in FillRest(f, tanks, u).used && Qty(FillRest(f, tanks, u).qty, i) == Qty(f.qty, i)
    decreases tanks
  {
    if tanks != [] {
      var t := tanks[0];
      assert t in tanks && tanks == [t] + tanks[1..];
      if t.id in f.used {
        RestKeepsBounds(f, tanks[1..], cap, u, ids);
      } else {
        var g := FillOne(f, t, u);
        RoundInside(Min(f.remaining, cap[t.id]), cap[t.id], u);
        assert Bounded(g, cap, ids, u);
        if g.remaining > 0.01 {
          RestKeepsBounds(g, tanks[1..], cap, u, ids);
        }
      }
    }
  }

  // ---- the tank list ----

  ghost predicate Capacitated(tanks: seq<Tank>) {
    DistinctIds(tanks) && forall t <- tanks :: CapacityOf(t) >= 0.0
  }

  ghost predicate GridCapacities(tanks: seq<Tank>, u: Unit) {
    Capacitated(tanks) && forall t <- tanks :: OnGrid(CapacityOf(t), u)
  }

  lemma {:induction false} CapacitiesHas(tanks: seq<Tank>, k: nat)
    requires DistinctIds(tanks) && k < |tanks|
    ensures Qty(Capacities(tanks), tanks[k].id) == CapacityOf(tanks[k]) && tanks[k].id in Capacities(tanks)
  {
    if k > 0 {
      CapacitiesHas(tanks[1..], k - 1);
    }
  }

  lemma {:induction false} CapacitiesKeys(tanks: seq<Tank>)
    ensures Capacities(tanks).Keys == (set i | i in Ids(tanks))
  {
    if tanks != [] {
      CapacitiesKeys(tanks[1..]);
      assert Ids(tanks) == [tanks[0].id] + Ids(tanks[1..]);
    }
  }

  lemma TableOf(tanks: seq<Tank>)
    requires Capacitated(tanks)
    ensures TankTable(Capacities(tanks), Ids(tanks)) && Listed(tanks, Capacities(tanks), Ids(tanks))
  {
    CapacitiesKeys(tanks);
    IdsAreTabled(tanks);
    TanksAreListed(tanks);
  }

  lemma IdsAreTabled(tanks: seq<Tank>)
    requires Capacitated(tanks)
    ensures forall i <- Ids(tanks) :: i in Capacities(tanks) && 0.0 <= Capacities(tanks)[i]
  {
    var cap, ids := Capacities(tanks), Ids(tanks);
    forall i <- ids ensures i in cap && 0.0 <= cap[i] {
      var k :| 0 <= k < |ids| && ids[k] == i;
      CapacitiesHas(tanks, k);
      assert tanks[k] in tanks;
    }
  }

  lemma TanksAreListed(tanks: seq<Tank>)
    requires Capacitated(tanks)
    ensures Listed(tanks, Capacities(tanks), Ids(tanks))
  {
    var cap, ids := Capacities(tanks), Ids(tanks);
    forall t <- tanks ensures t.id in ids && t.id in cap && cap[t.id] == CapacityOf(t) {
      var k :| 0 <= k < |tanks| && tanks[k] == t;
      CapacitiesHas(tanks, k);
      assert ids[k] == t.id;
    }
  }

  lemma GridTableOf(tanks: seq<Tank>, u: Unit)
    requires GridCapacities(tanks, u)
    ensures GridTable(Capacities(tanks), Ids(tanks), u)
  {
    var cap, ids := Capacities(tanks), Ids(tanks);
    TableOf(tanks);
    forall i <- ids ensures OnGrid(cap[i], u) {
      var k :| 0 <= k < |ids| && ids[k] == i;
      CapacitiesHas(tanks, k);
      assert tanks[k] in tanks;
    }
  }

  lemma {:induction false} EmptyTotal(q: Quantities, ids: seq<string>)
    requires forall i <- ids :: Qty(q, i) == 0.0
    ensures Total(q, ids) == 0.0
  {
    if ids != [] {
      EmptyTotal(q, ids[1..]);
    }
  }

  function Start(tanks: seq<Tank>, quantity: real): Fill {
    Fill(Empty(tanks), quantity, {})
  }

  /** State of the fill when the three pairs are done. */
  function AfterPairs(tanks: seq<Tank>, u: Unit, quantity: real): Fill {
    FillPairs(Start(tanks, quantity), Capacities(tanks), u, SYMMETRIC_PAIRS)
  }

  lemma StartBounded(tanks: seq<Tank>, u: Unit, quantity: real)
    requires Capacitated(tanks) && quantity >= 0.0
    ensures Bounded(Start(tanks, quantity), Capacities(tanks), Ids(tanks), u)
    ensures DisjointPairs(SYMMETRIC_PAIRS) && forall p <- SYMMETRIC_PAIRS :: Fresh(Start(tanks, quantity), p)
  {
    var cap, ids := Capacities(tanks), Ids(tanks);
    TableOf(tanks);
    forall i <- ids ensures RoundFuel(cap[i], u) >= 0.0 {
      RoundInside(0.0, cap[i], u);
    }
    PairsAreDisjoint();
  }

  lemma PairsAreDisjoint()
    ensures DisjointPairs(SYMMETRIC_PAIRS)
  {
    assert "LEFT_MAIN"[0] == 'L' && "RIGHT_MAIN"[0] == 'R';
  }

  lemma AfterPairsBounds(tanks: seq<Tank>, u: Unit, quantity: real)
    requires Capacitated(tanks) && quantity >= 0.0
    ensures var f := AfterPairs(tanks, u, quantity);
            && Bounded(f, Capacities(tanks), Ids(tanks), u)
            && f.used == PairedIn(Capacities(tanks), SYMMETRIC_PAIRS)
            && f.remaining == quantity - Total(f.qty, Ids(tanks))
  {
    TableOf(tanks);
    StartBounded(tanks, u, quantity);
    EmptyTotal(Empty(tanks), Ids(tanks));
    PairsKeepBounds(Start(tanks, quantity), Capacities(tanks), u, SYMMETRIC_PAIRS, Ids(tanks));
  }

  // ---- for any capacities ----

  /** No tank is ever filled beyond its rounded capacity, whatever is asked for. */
  lemma TanksStayInside(tanks: seq<Tank>, u: Unit, quantity: real, i: string)
    requires Capacitated(tanks) && quantity >= 0.0 && i in Ids(tanks)
    ensures 0.0 <= Qty(Split(quantity, tanks, u).qty, i) <= RoundFuel(Qty(Capacities(tanks), i), u)
  {
    SplitBounded(tanks, u, quantity);
    TableOf(tanks);
  }

  lemma SplitBounded(tanks: seq<Tank>, u: Unit, quantity: real)
    requires Capacitated(tanks) && quantity >= 0.0
    ensures Bounded(Split(quantity, tanks, u), Capacities(tanks), Ids(tanks), u)
    ensures var f := AfterPairs(tanks, u, quantity);
            var g := Split(quantity, tanks, u);
            forall i <- f.used :: i in g.used && Qty(g.qty, i) == Qty(f.qty, i)
  {
    var f := AfterPairs(tanks, u, quantity);
    TableOf(tanks);
    AfterPairsBounds(tanks, u, quantity);
    if f.remaining > 0.01 {
      RestKeepsBounds(f, tanks, Capacities(tanks), u, Ids(tanks));
    }
  }

  /** Capacity of the tanks that no filled pair uses. */
  function SpareCapacity(tanks: seq<Tank>): real {
    RestCapacity(tanks, PairedIn(Capacities(tanks), SYMMETRIC_PAIRS))
  }

  /** The split is accepted exactly when the unpaired tanks can hold what the pairs leave over. */
  lemma SplitAcceptsIff(tanks: seq<Tank>, u: Unit, quantity: real)
    requires Capacitated(tanks) && quantity >= 0.0
    ensures Split(quantity, tanks, u).remaining <= 0.01
            <==> AfterPairs(tanks, u, quantity).remaining <= SpareCapacity(tanks) + 0.01
  {
    var f := AfterPairs(tanks, u, quantity);
    AfterPairsBounds(tanks, u, quantity);
    RestNonNegative(tanks, f.used);
    if f.remaining > 0.01 {
      RestAcceptsIff(f, tanks, u);
    }
  }

  /** The two sides of a symmetric pair with equal capacities carry equal fuel. */
  lemma SplitIsLevel(tanks: seq<Tank>, u: Unit, quantity: real, k: nat)
    requires Capacitated(tanks) && quantity >= 0.0 && k < |SYMMETRIC_PAIRS|
    ensures LevelPair(Split(quantity, tanks, u), Capacities(tanks), SYMMETRIC_PAIRS[k])
  {
    TableOf(tanks);
    StartBounded(tanks, u, quantity);
    PairsLevel(Start(tanks, quantity), Capacities(tanks), u, SYMMETRIC_PAIRS, Ids(tanks), k);
    SplitBounded(tanks, u, quantity);
    StaysLevel(AfterPairs(tanks, u, quantity), Split(quantity, tanks, u), Capacities(tanks), Ids(tanks), u, SYMMETRIC_PAIRS[k]);
  }

  lemma StaysLevel(f: Fill, g: Fill, cap: Quantities, ids: seq<string>, u: Unit, p: Pair)
    requires TankTable(cap, ids) && Bounded(g, cap, ids, u) && LevelPair(f, cap, p)
    requires Present(cap, p) ==> p.0 in f.used && p.1 in f.used
    requires forall i <- f.used :: Qty(g.qty, i) == Qty(f.qty, i)
    ensures LevelPair(g, cap, p)
  {
    if p.0 in cap && p.1 in cap && !Present(cap, p) {
      assert p.0 in ids && p.1 in ids;
      RoundGrid(0.0, u);
    }
  }

  /** Half a step for every tank that is not in a given set. */
  function HalfSteps(tanks: seq<Tank>, used: set<string>, u: Unit): real {
    if tanks == [] then 0.0
    else (if tanks[0].id in used then 0.0 else Step(u) / 2.0) + HalfSteps(tanks[1..], used, u)
  }

  lemma {:induction false} HalfStepsFrame(tanks: seq<Tank>, used: set<string>, more: set<string>, u: Unit)
    requires forall t <- tanks :: t.id in used <==> t.id in more
    ensures HalfSteps(tanks, used, u) == HalfSteps(tanks, more, u) >= 0.0
  {
    if tanks != [] {
      assert tanks == [tanks[0]] + tanks[1..];
      HalfStepsFrame(tanks[1..], used, more, u);
    }
  }

  /** How far the remaining quantity is off what the tanks say. */
  function Drift(f: Fill, ids: seq<string>, quantity: real): real {
    f.remaining - (quantity - Total(f.qty, ids))
  }

  lemma OneDrifts(f: Fill, t: Tank, cap: Quantities, u: Unit, ids: seq<string>, quantity: real)
    requires TankTable(cap, ids) && Bounded(f, cap, ids, u) && f.remaining > 0.01
    requires t.id !in f.used && t.id in ids && cap[t.id] == CapacityOf(t)
    ensures Bounded(FillOne(f, t, u), cap, ids, u)
    ensures -Step(u) / 2.0 <= Drift(FillOne(f, t, u), ids, quantity) - Drift(f, ids, quantity) <= Step(u) / 2.0
  {
    var take := Min(f.remaining, CapacityOf(t));
    RoundInside(take, cap[t.id], u);
    RoundGrid(take, u);
    TotalUpdate(f.qty, t.id, RoundFuel(take, u), ids);
  }

  lemma {:induction false} RestDrifts(f: Fill, tanks: seq<Tank>, cap: Quantities, u: Unit, ids: seq<string>, quantity: real)
    requires DistinctIds(tanks) && TankTable(cap, ids) && Bounded(f, cap, ids, u) && f.remaining > 0.01 && Listed(tanks, cap, ids)
    ensures var slack := HalfSteps(tanks, f.used, u);
            -slack <= Drift(FillRest(f, tanks, u), ids, quantity) - Drift(f, ids, quantity) <= slack
    decreases tanks
  {
    if tanks != [] {
      var t := tanks[0];
      assert t in tanks && tanks == [t] + tanks[1..];
      if t.id in f.used {
        RestDrifts(f, tanks[1..], cap, u, ids, quantity);
      } else {
        var g := FillOne(f, t, u);
        OneDrifts(f, t, cap, u, ids, quantity);
        forall e <- tanks[1..] ensures e.id in f.used <==> e.id in g.used {
          var j :| 0 <= j < |tanks[1..]| && tanks[1..][j] == e;
          assert e == tanks[j + 1];
        }
        HalfStepsFrame(tanks[1..], f.used, g.used, u);
        if g.remaining > 0.01 {
          RestDrifts(g, tanks[1..], cap, u, ids, quantity);
        }
      }
    }
  }

  /** Half a step for every tank outside the pairs. */
  function SpareSlack(tanks: seq<Tank>, u: Unit): real {
    HalfSteps(tanks, PairedIn(Capacities(tanks), SYMMETRIC_PAIRS), u)
  }

  /** The total of an accepted split, for any capacities: short by at most 0.01 and half a step for every
      unpaired tank, over by at most a step and the same. */
  lemma SplitTotal(tanks: seq<Tank>, u: Unit, quantity: real)
    requires Capacitated(tanks) && quantity >= 0.0 && Split(quantity, tanks, u).remaining <= 0.01
    ensures var short := quantity - Total(Split(quantity, tanks, u).qty, Ids(tanks));
            -Step(u) - SpareSlack(tanks, u) <= short <= 0.01 + SpareSlack(tanks, u)
  {
    var f := AfterPairs(tanks, u, quantity);
    TableOf(tanks);
    AfterPairsBounds(tanks, u, quantity);
    SplitBounded(tanks, u, quantity);
    HalfStepsFrame(tanks, f.used, f.used, u);
    if f.remaining > 0.01 {
      RestDrifts(f, tanks, Capacities(tanks), u, Ids(tanks), quantity);
    }
  }

  // ---- capacities on the grid of their unit ----

  /** The books balance, and either everything used so far is full, or the request fits and less than a
      grid step is left or at most one is overdrawn. */
  ghost predicate Balanced(f: Fill, cap: Quantities, ids: seq<string>, u: Unit, quantity: real) {
    && Bounded(f, cap, ids, u)
    && f.remaining == quantity - Total(f.qty, ids)
    && ((f.remaining < Step(u) && quantity <= Total(cap, ids)) || (f.remaining >= 0.0 && AllFull(f, cap, ids)))
  }

  lemma WithinCaps(f: Fill, cap: Quantities, ids: seq<string>, u: Unit)
    requires GridTable(cap, ids, u) && Bounded(f, cap, ids, u)
    ensures forall i <- ids :: Qty(f.qty, i) <= Qty(cap, i)
    ensures Total(f.qty, ids) <= Total(cap, ids)
  {
    forall i <- ids ensures Qty(f.qty, i) <= Qty(cap, i) {
      RoundGrid(cap[i], u);
    }
    TotalMonotone(f.qty, cap, ids);
  }

  /** What is not placed yet is at least the capacity of tanks not used yet. */
  lemma CapacityLeft(f: Fill, cap: Quantities, ids: seq<string>, u: Unit, a: string, b: string)
    requires GridTable(cap, ids, u) && Bounded(f, cap, ids, u)
    requires a in ids && b in ids && a != b && a !in f.used && b !in f.used
    ensures cap[a] + cap[b] <= Total(cap, ids) - Total(f.qty, ids)
  {
    var v := f.qty[a := cap[a]];
    var w := v[b := cap[b]];
    WithinCaps(f, cap, ids, u);
    TotalUpdate(f.qty, a, cap[a], ids);
    TotalUpdate(v, b, cap[b], ids);
    TotalMonotone(w, cap, ids);
  }

  lemma OneLeft(f: Fill, cap: Quantities, ids: seq<string>, u: Unit, a: string)
    requires GridTable(cap, ids, u) && Bounded(f, cap, ids, u)
    requires a in ids && a !in f.used
    ensures cap[a] <= Total(cap, ids) - Total(f.qty, ids)
  {
    WithinCaps(f, cap, ids, u);
    TotalUpdate(f.qty, a, cap[a], ids);
    TotalMonotone(f.qty[a := cap[a]], cap, ids);
  }

  lemma PairKeepsBalance(f: Fill, cap: Quantities, u: Unit, pair: Pair, ids: seq<string>, quantity: real)
    requires GridTable(cap, ids, u) && Balanced(f, cap, ids, u, quantity) && Fresh(f, pair) && Present(cap, pair)
    ensures Balanced(FillPair(f, cap, u, pair), cap, ids, u, quantity)
    ensures AllFull(f, cap, ids) && cap[pair.0] + cap[pair.1] <= f.remaining ==> AllFull(FillPair(f, cap, u, pair), cap, ids)
  {
    assert pair.0 in ids && pair.1 in ids;
    var left, right := PairTurn(f, cap, u, pair, ids);
    CapacityLeft(f, cap, ids, u, pair.0, pair.1);
    GridSum(cap[pair.0], cap[pair.1], u);
    GridGap(cap[pair.0] + cap[pair.1], u);
    RoundGrid(cap[pair.0], u);
    RoundGrid(cap[pair.1], u);
  }

  lemma {:induction false} PairsKeepBalance(f: Fill, cap: Quantities, u: Unit, pairs: seq<Pair>, ids: seq<string>, quantity: real)
    requires GridTable(cap, ids, u) && Balanced(f, cap, ids, u, quantity)
    requires DisjointPairs(pairs) && forall p <- pairs :: Fresh(f, p)
    ensures var g := FillPairs(f, cap, u, pairs);
            && Balanced(g, cap, ids, u, quantity)
            && (quantity == Total(cap, ids) && AllFull(f, cap, ids) ==> AllFull(g, cap, ids))
    decreases pairs
  {
    if pairs != [] {
      var p := pairs[0];
      FreshAfter(f, cap, u, pairs);
      if Present(cap, p) {
        PairKeepsBalance(f, cap, u, p, ids, quantity);
        CapacityLeft(f, cap, ids, u, p.0, p.1);
      }
      PairsKeepBalance(FillPair(f, cap, u, p), cap, u, pairs[1..], ids, quantity);
    }
  }

  lemma AfterPairsBalanced(tanks: seq<Tank>, u: Unit, quantity: real)
    requires GridCapacities(tanks, u) && quantity >= 0.0
    ensures Balanced(AfterPairs(tanks, u, quantity), Capacities(tanks), Ids(tanks), u, quantity)
    ensures quantity == Total(Capacities(tanks), Ids(tanks)) ==>
              AllFull(AfterPairs(tanks, u, quantity), Capacities(tanks), Ids(tanks))
  {
    GridTableOf(tanks, u);
    StartBounded(tanks, u, quantity);
    EmptyTotal(Empty(tanks), Ids(tanks));
    PairsKeepBalance(Start(tanks, quantity), Capacities(tanks), u, SYMMETRIC_PAIRS, Ids(tanks), quantity);
  }

  /** One unpaired tank is filled up, or takes the rest to within half a step. */
  lemma OneKeepsBalance(f: Fill, t: Tank, cap: Quantities, u: Unit, ids: seq<string>, quantity: real)
    requires GridTable(cap, ids, u) && Balanced(f, cap, ids, u, quantity)
    requires f.remaining > 0.01 && t.id !in f.used && t.id in ids && cap[t.id] == CapacityOf(t)
    ensures var g := FillOne(f, t, u);
            && Bounded(g, cap, ids, u)
            && (cap[t.id] <= f.remaining ==>
                  && Balanced(g, cap, ids, u, quantity) && g.remaining >= 0.0
                  && (AllFull(f, cap, ids) ==> AllFull(g, cap, ids)))
            && (f.remaining < cap[t.id] ==> g.remaining == 0.0 && NearlyPlaced(quantity - Total(g.qty, ids), u))
  {
    var take := Min(f.remaining, CapacityOf(t));
    assert OnGrid(cap[t.id], u);
    RoundInside(take, cap[t.id], u);
    RoundGrid(take, u);
    TotalUpdate(f.qty, t.id, RoundFuel(take, u), ids);
  }

  /** Short by at most half a step (or 0.01), over by at most a step. */
  predicate NearlyPlaced(short: real, u: Unit) {
    -Step(u) <= short <= Max(0.01, Step(u) / 2.0)
  }

  lemma {:induction false} RestKeepsBalance(f: Fill, tanks: seq<Tank>, cap: Quantities, u: Unit, ids: seq<string>, quantity: real)
    requires GridTable(cap, ids, u) && Balanced(f, cap, ids, u, quantity) && f.remaining > 0.01 && Listed(tanks, cap, ids)
    ensures var g := FillRest(f, tanks, u);
            && (g.remaining <= 0.01 ==> NearlyPlaced(quantity - Total(g.qty, ids), u))
            && (quantity == Total(cap, ids) && AllFull(f, cap, ids) ==>
                  AllFull(g, cap, ids) && Bounded(g, cap, ids, u) && g.remaining == quantity - Total(g.qty, ids))
    decreases tanks
  {
    if tanks != [] {
      var t := tanks[0];
      assert t in tanks && tanks == [t] + tanks[1..];
      if t.id in f.used {
        RestKeepsBalance(f, tanks[1..], cap, u, ids, quantity);
      } else {
        var g := FillOne(f, t, u);
        OneKeepsBalance(f, t, cap, u, ids, quantity);
        OneLeft(f, cap, ids, u, t.id);
        if g.remaining > 0.01 {
          RestKeepsBalance(g, tanks[1..], cap, u, ids, quantity);
        }
      }
    }
  }

  /** Bounds and total of an accepted split. */
  lemma SplitPlaces(tanks: seq<Tank>, u: Unit, quantity: real)
    requires GridCapacities(tanks, u) && quantity >= 0.0
    ensures var g := Split(quantity, tanks, u);
            && (forall i <- Ids(tanks) :: 0.0 <= Qty(g.qty, i) <= Qty(Capacities(tanks), i))
            && (g.remaining <= 0.01 ==> NearlyPlaced(quantity - Total(g.qty, Ids(tanks)), u))
  {
    var f := AfterPairs(tanks, u, quantity);
    GridTableOf(tanks, u);
    TableOf(tanks);
    SplitBounded(tanks, u, quantity);
    WithinCaps(Split(quantity, tanks, u), Capacities(tanks), Ids(tanks), u);
    AfterPairsBalanced(tanks, u, quantity);
    if f.remaining > 0.01 {
      RestKeepsBalance(f, tanks, Capacities(tanks), u, Ids(tanks), quantity);
    }
  }

  /** Asked for exactly the capacity, the split fills every tank bigger than 0.01 to the brim. */
  lemma SplitFillsUp(tanks: seq<Tank>, u: Unit, i: string)
    requires GridCapacities(tanks, u) && i in Ids(tanks) && Qty(Capacities(tanks), i) > 0.01
    ensures Qty(Split(Total(Capacities(tanks), Ids(tanks)), tanks, u).qty, i) == Qty(Capacities(tanks), i)
  {
    var cap, ids := Capacities(tanks), Ids(tanks);
    var all := Total(cap, ids);
    GridTableOf(tanks, u);
    TableOf(tanks);
    EmptyTotal(Empty(tanks), ids);
    TotalMonotone(Empty(tanks), cap, ids);
    var f, g := AfterPairs(tanks, u, all), Split(all, tanks, u);
    AfterPairsBalanced(tanks, u, all);
    CapacityTotalOver(tanks, cap);
    if f.remaining > 0.01 {
      RestKeepsBalance(f, tanks, cap, u, ids, all);
    }
    FullIsAccepted(tanks, u);
    if i !in g.used {
      OneLeft(g, cap, ids, u, i);
    }
  }

  // ---- when it is accepted ----

  lemma {:induction false} CapacityTotalOver(tanks: seq<Tank>, cap: Quantities)
    requires forall t <- tanks :: Qty(cap, t.id) == CapacityOf(t)
    ensures CapacityTotal(tanks) == Total(cap, Ids(tanks))
  {
    if tanks != [] {
      assert tanks == [tanks[0]] + tanks[1..];
      assert Ids(tanks)[1..] == Ids(tanks[1..]);
      CapacityTotalOver(tanks[1..], cap);
    }
  }

  lemma CapacityTotalIs(tanks: seq<Tank>)
    requires Capacitated(tanks)
    ensures CapacityTotal(tanks) == Total(Capacities(tanks), Ids(tanks)) >= 0.0
  {
    TableOf(tanks);
    CapacityTotalOver(tanks, Capacities(tanks));
    EmptyTotal(Empty(tanks), Ids(tanks));
    TotalMonotone(Empty(tanks), Capacities(tanks), Ids(tanks));
  }

  /** When all used tanks are full, what was placed and the capacity of the others make up the whole. */
  lemma {:induction false} FullAndSpare(f: Fill, tanks: seq<Tank>)
    requires forall t <- tanks :: Qty(f.qty, t.id) == if t.id in f.used then CapacityOf(t) else 0.0
    ensures Total(f.qty, Ids(tanks)) + RestCapacity(tanks, f.used) == CapacityTotal(tanks)
  {
    if tanks != [] {
      assert tanks == [tanks[0]] + tanks[1..];
      assert Ids(tanks)[1..] == Ids(tanks[1..]);
      FullAndSpare(f, tanks[1..]);
    }
  }

  lemma {:induction false} SpareOnGrid(tanks: seq<Tank>, used: set<string>, u: Unit)
    requires forall t <- tanks :: OnGrid(CapacityOf(t), u)
    ensures OnGrid(RestCapacity(tanks, used), u) && OnGrid(CapacityTotal(tanks), u)
  {
    assert Whole(0.0);
    if tanks != [] {
      assert tanks == [tanks[0]] + tanks[1..];
      SpareOnGrid(tanks[1..], used, u);
      GridSum(CapacityOf(tanks[0]), RestCapacity(tanks[1..], used), u);
      GridSum(CapacityOf(tanks[0]), CapacityTotal(tanks[1..]), u);
    }
  }

  /** A request that fits and is refused all the same: every tank is in a pair, and the rounded shares
      leave more than 0.01. */
  predicate FallsShort(tanks: seq<Tank>, u: Unit, quantity: real) {
    && quantity <= CapacityTotal(tanks) && SpareCapacity(tanks) == 0.0
    && AfterPairs(tanks, u, quantity).remaining > 0.01
  }

  lemma SplitAcceptsOnGrid(tanks: seq<Tank>, u: Unit, quantity: real)
    requires GridCapacities(tanks, u) && quantity >= 0.0
    ensures Split(quantity, tanks, u).remaining <= 0.01
            <==> quantity <= CapacityTotal(tanks) + 0.01 && !FallsShort(tanks, u, quantity)
  {
    var f, spare := AfterPairs(tanks, u, quantity), SpareCapacity(tanks);
    SplitAcceptsIff(tanks, u, quantity);
    AfterPairsBounds(tanks, u, quantity);
    AfterPairsBalanced(tanks, u, quantity);
    CapacityTotalIs(tanks);
    RestNonNegative(tanks, f.used);
    SpareOnGrid(tanks, f.used, u);
    if spare > 0.0 {
      GridGap(spare, u);
    }
    TableOf(tanks);
    if AllFull(f, Capacities(tanks), Ids(tanks)) {
      FullAndSpare(f, tanks);
    }
  }

  /** No request in hundredths falls short, no request on the grid, and none at all where one tank with
      room is in no pair. */
  lemma NeverShort(tanks: seq<Tank>, u: Unit, quantity: real)
    requires GridCapacities(tanks, u) && quantity >= 0.0
    requires Hundredths(u) || OnGrid(quantity, u) || SpareCapacity(tanks) > 0.0
    ensures !FallsShort(tanks, u, quantity)
  {
    var f := AfterPairs(tanks, u, quantity);
    AfterPairsBalanced(tanks, u, quantity);
    AfterPairsBounds(tanks, u, quantity);
    CapacityTotalIs(tanks);
    TableOf(tanks);
    if AllFull(f, Capacities(tanks), Ids(tanks)) {
      FullAndSpare(f, tanks);
    }
    if OnGrid(quantity, u) && f.remaining > 0.0 {
      PairsStayOnGrid(Start(tanks, quantity), Capacities(tanks), u, SYMMETRIC_PAIRS);
      GridGap(f.remaining, u);
    }
  }

  lemma {:induction false} PairsStayOnGrid(f: Fill, cap: Quantities, u: Unit, pairs: seq<Pair>)
    requires OnGrid(f.remaining, u)
    ensures OnGrid(FillPairs(f, cap, u, pairs).remaining, u)
    decreases pairs
  {
    if pairs != [] {
      var p := pairs[0];
      if Present(cap, p) {
        var s := Shares(Min(f.remaining, cap[p.0] + cap[p.1]), cap[p.0], cap[p.1]);
        RoundGrid(s.0, u);
        RoundGrid(s.1, u);
        GridSum(RoundFuel(s.0, u), RoundFuel(s.1, u), u);
        GridSum(f.remaining, RoundFuel(s.0, u) + RoundFuel(s.1, u), u);
      }
      PairsStayOnGrid(FillPair(f, cap, u, p), cap, u, pairs[1..]);
    }
  }

  /** The capacity itself is always accepted. */
  lemma FullIsAccepted(tanks: seq<Tank>, u: Unit)
    requires GridCapacities(tanks, u)
    ensures Split(CapacityTotal(tanks), tanks, u).remaining <= 0.01
  {
    CapacityTotalIs(tanks);
    SpareOnGrid(tanks, {}, u);
    SplitAcceptsOnGrid(tanks, u, CapacityTotal(tanks));
    NeverShort(tanks, u, CapacityTotal(tanks));
  }

  // ---- pairs with equal sides ----

  /** Every pair of the list is missing or holds the same on both sides. */
  ghost predicate EqualSides(cap: Quantities, pairs: seq<Pair>) {
    forall p <- pairs :: p.0 in cap && p.1 in cap ==> cap[p.0] == cap[p.1]
  }

  function PairCapacity(cap: Quantities, pairs: seq<Pair>): real {
    if pairs == [] then 0.0
    else (if Present(cap, pairs[0]) then cap[pairs[0].0] + cap[pairs[0].1] else 0.0) + PairCapacity(cap, pairs[1..])
  }

  ghost predicate GridPairs(cap: Quantities, u: Unit) {
    forall i <- cap :: cap[i] >= 0.0 && OnGrid(cap[i], u)
  }

  /** What pairs with equal sides leave over: the rest beyond their capacity, or what rounding half the
      request twice loses. */
  function LeftOver(quantity: real, capacity: real, u: Unit): real {
    if quantity <= capacity then quantity - 2.0 * RoundFuel(quantity / 2.0, u) else quantity - capacity
  }

  lemma RoundShift(x: real, c: real, u: Unit)
    requires OnGrid(c, u)
    ensures RoundFuel(x - c, u) == RoundFuel(x, u) - c
  {
    if Hundredths(u) {
      var n := (c * 100.0).Floor;
      FloorIs((x - c) * 100.0 + 0.5, (x * 100.0 + 0.5).Floor - n);
    } else {
      FloorIs(x - c + 0.5, (x + 0.5).Floor - c.Floor);
    }
  }

  lemma LeftOverTurn(r: real, c: real, more: real, u: Unit)
    requires OnGrid(c, u) && c > 0.0 && -Step(u) <= r && (more == 0.0 || more >= Step(u))
    ensures var next := if 2.0 * c <= r then r - 2.0 * c else r - 2.0 * RoundFuel(r / 2.0, u);
            -Step(u) <= next && LeftOver(next, more, u) == LeftOver(r, 2.0 * c + more, u)
  {
    var next := if 2.0 * c <= r then r - 2.0 * c else r - 2.0 * RoundFuel(r / 2.0, u);
    RoundGrid(r / 2.0, u);
    if 2.0 * c <= r {
      RoundShift(r / 2.0, c, u);
      assert next / 2.0 == r / 2.0 - c;
    } else {
      RoundGrid(next / 2.0, u);
    }
  }

  lemma EqualPairTurn(f: Fill, cap: Quantities, u: Unit, p: Pair)
    requires Present(cap, p) && GridPairs(cap, u) && cap[p.0] == cap[p.1]
    ensures FillPair(f, cap, u, p).remaining
         == if 2.0 * cap[p.0] <= f.remaining then f.remaining - 2.0 * cap[p.0]
            else f.remaining - 2.0 * RoundFuel(f.remaining / 2.0, u)
  {
    var c := cap[p.0];
    RoundGrid(c, u);
    assert Shares(Min(f.remaining, c + c), c, c) == (Min(f.remaining, c + c) / 2.0, Min(f.remaining, c + c) / 2.0);
  }

  lemma {:induction false} PairCapacityGap(cap: Quantities, u: Unit, pairs: seq<Pair>)
    requires GridPairs(cap, u)
    ensures PairCapacity(cap, pairs) == 0.0 || PairCapacity(cap, pairs) >= Step(u)
  {
    if pairs != [] {
      var p := pairs[0];
      PairCapacityGap(cap, u, pairs[1..]);
      if Present(cap, p) {
        assert OnGrid(cap[p.0], u) && OnGrid(cap[p.1], u);
        GridSum(cap[p.0], cap[p.1], u);
        GridGap(cap[p.0] + cap[p.1], u);
      }
    }
  }

  lemma {:induction false} EqualPairsLeave(f: Fill, cap: Quantities, u: Unit, pairs: seq<Pair>)
    requires GridPairs(cap, u) && EqualSides(cap, pairs) && f.remaining >= -Step(u)
    ensures FillPairs(f, cap, u, pairs).remaining == LeftOver(f.remaining, PairCapacity(cap, pairs), u)
    decreases pairs
  {
    if pairs == [] {
      RoundGrid(f.remaining / 2.0, u);
    } else {
      var p := pairs[0];
      assert p in pairs;
      if Present(cap, p) {
        PairCapacityGap(cap, u, pairs[1..]);
        LeftOverTurn(f.remaining, cap[p.0], PairCapacity(cap, pairs[1..]), u);
        EqualPairTurn(f, cap, u, p);
      }
      EqualPairsLeave(FillPair(f, cap, u, p), cap, u, pairs[1..]);
    }
  }

  /** Capacity of the pairs of a profile. */
  function PairsCapacity(tanks: seq<Tank>): real {
    PairCapacity(Capacities(tanks), SYMMETRIC_PAIRS)
  }

  lemma GridPairsOf(tanks: seq<Tank>, u: Unit)
    requires GridCapacities(tanks, u)
    ensures GridPairs(Capacities(tanks), u)
  {
    GridTableOf(tanks, u);
  }

  lemma AfterEqualPairs(tanks: seq<Tank>, u: Unit, quantity: real)
    requires GridCapacities(tanks, u) && EqualSides(Capacities(tanks), SYMMETRIC_PAIRS) && quantity >= 0.0
    ensures AfterPairs(tanks, u, quantity).remaining == LeftOver(quantity, PairsCapacity(tanks), u)
  {
    GridPairsOf(tanks, u);
    EqualPairsLeave(Start(tanks, quantity), Capacities(tanks), u, SYMMETRIC_PAIRS);
  }

  /** Pairs with equal sides and the tanks outside them make up the whole capacity. */
  lemma PairsAndSpare(tanks: seq<Tank>, u: Unit)
    requires GridCapacities(tanks, u) && EqualSides(Capacities(tanks), SYMMETRIC_PAIRS)
    ensures PairsCapacity(tanks) + SpareCapacity(tanks) == CapacityTotal(tanks)
  {
    CapacityTotalIs(tanks);
    GridPairsOf(tanks, u);
    PairCapacityGap(Capacities(tanks), u, SYMMETRIC_PAIRS);
    var quantity := CapacityTotal(tanks) + PairsCapacity(tanks) + 1.0;
    AfterEqualPairs(tanks, u, quantity);
    AfterPairsBounds(tanks, u, quantity);
    AfterPairsBalanced(tanks, u, quantity);
    TableOf(tanks);
    FullAndSpare(AfterPairs(tanks, u, quantity), tanks);
  }

  /** With equal sides a request that fits falls short exactly when every tank is in a pair and twice the
      rounded half of the request is more than 0.01 below it. */
  lemma FallsShortIff(tanks: seq<Tank>, u: Unit, quantity: real)
    requires GridCapacities(tanks, u) && EqualSides(Capacities(tanks), SYMMETRIC_PAIRS) && quantity >= 0.0
    ensures FallsShort(tanks, u, quantity)
            <==> quantity <= CapacityTotal(tanks) && SpareCapacity(tanks) == 0.0
                 && quantity > 2.0 * RoundFuel(quantity / 2.0, u) + 0.01
  {
    AfterEqualPairs(tanks, u, quantity);
    PairsAndSpare(tanks, u);
  }

  // ---- the result in pounds ----

  /** The request fits to a hundredth, or clamping was asked for and the request passes the capacity by
      more than 0.05. In between, in the band above capacity + 0.01 and up to capacity + 0.05, it is
      refused even when asked to clamp. */
  predicate Accepts(quantity: real, capacity: real, clamp: bool) {
    quantity <= capacity + 0.01 || (clamp && quantity > capacity + 0.05)
  }

  /** When the fuel is accepted, in any unit. */
  lemma DistributeAcceptsIff(blockFuelLb: real, tanks: seq<Tank>, u: Unit, lbPerGal: real, clamp: bool)
    requires GridCapacities(tanks, u) && blockFuelLb >= 0.0 && lbPerGal > 0.0 && CapacityTotal(tanks) > 0.0
    ensures var quantity := QtyFromLb(blockFuelLb, u, lbPerGal);
            Distributed(blockFuelLb, tanks, u, lbPerGal, clamp).Ok?
            <==> Accepts(quantity, CapacityTotal(tanks), clamp) && !FallsShort(tanks, u, quantity)
    ensures var r := Distributed(blockFuelLb, tanks, u, lbPerGal, clamp);
            r.Err? ==> r.error == FuelOverCapacity
  {
    QtyNonNegative(blockFuelLb, u, lbPerGal);
    SplitAcceptsOnGrid(tanks, u, QtyFromLb(blockFuelLb, u, lbPerGal));
    FullIsAccepted(tanks, u);
  }

  /** For any capacities: the fuel is accepted exactly when it does not pass the capacity by more than 0.05,
      or is to be clamped, and the unpaired tanks can hold what the pairs leave over. */
  lemma AnyTanksAcceptIff(blockFuelLb: real, tanks: seq<Tank>, u: Unit, lbPerGal: real, clamp: bool)
    requires Capacitated(tanks) && blockFuelLb >= 0.0 && lbPerGal > 0.0
    ensures var quantity, capacity := QtyFromLb(blockFuelLb, u, lbPerGal), CapacityTotal(tanks);
            Distributed(blockFuelLb, tanks, u, lbPerGal, clamp).Ok?
            <==> capacity > 0.0 && (quantity <= capacity + 0.05 || clamp)
                 && AfterPairs(tanks, u, if quantity > capacity + 0.05 then capacity else quantity).remaining
                    <= SpareCapacity(tanks) + 0.01
  {
    var quantity, capacity := QtyFromLb(blockFuelLb, u, lbPerGal), CapacityTotal(tanks);
    QtyNonNegative(blockFuelLb, u, lbPerGal);
    CapacityTotalIs(tanks);
    SplitAcceptsIff(tanks, u, if quantity > capacity + 0.05 then capacity else quantity);
  }

  /** What any accepted request gets, whatever the capacities: every tank between empty and its rounded
      capacity, and the total of SplitTotal. */
  lemma AnyTanksDeliver(blockFuelLb: real, tanks: seq<Tank>, u: Unit, lbPerGal: real, clamp: bool, i: string)
    requires Capacitated(tanks) && blockFuelLb >= 0.0 && lbPerGal > 0.0 && i in Ids(tanks)
    requires Distributed(blockFuelLb, tanks, u, lbPerGal, clamp).Ok?
    ensures var f := Distributed(blockFuelLb, tanks, u, lbPerGal, clamp).value;
            var asked := if f.clamped then f.capacityTotal else QtyFromLb(blockFuelLb, u, lbPerGal);
            && 0.0 <= Qty(f.tanks, i) <= RoundFuel(Qty(Capacities(tanks), i), u)
            && -Step(u) - SpareSlack(tanks, u) <= asked - Total(f.tanks, Ids(tanks)) <= 0.01 + SpareSlack(tanks, u)
            && (f.clamped <==> QtyFromLb(blockFuelLb, u, lbPerGal) > CapacityTotal(tanks) + 0.05)
    ensures var f := Distributed(blockFuelLb, tanks, u, lbPerGal, clamp).value;
            && f.requestedLb == blockFuelLb && f.capacityTotal == Total(Capacities(tanks), Ids(tanks))
            && -0.5 <= f.placedLb - LbFromQty(Total(f.tanks, Ids(tanks)), u, lbPerGal) <= 0.5 && Whole(f.placedLb)
  {
    CapacityTotalIs(tanks);
    QtyNonNegative(blockFuelLb, u, lbPerGal);
    RoundWhole(LbFromQty(Total(Distributed(blockFuelLb, tanks, u, lbPerGal, clamp).value.tanks, Ids(tanks)), u, lbPerGal));
    var q := QtyFromLb(blockFuelLb, u, lbPerGal);
    var asked := if q > CapacityTotal(tanks) + 0.05 then CapacityTotal(tanks) else q;
    SplitTotal(tanks, u, asked);
    TanksStayInside(tanks, u, asked, i);
  }

  /** With equal sides the condition is one comparison. */
  lemma EqualSidesAcceptIff(blockFuelLb: real, tanks: seq<Tank>, u: Unit, lbPerGal: real, clamp: bool)
    requires GridCapacities(tanks, u) && EqualSides(Capacities(tanks), SYMMETRIC_PAIRS)
    requires blockFuelLb >= 0.0 && lbPerGal > 0.0 && CapacityTotal(tanks) > 0.0
    ensures var quantity, capacity := QtyFromLb(blockFuelLb, u, lbPerGal), CapacityTotal(tanks);
            Distributed(blockFuelLb, tanks, u, lbPerGal, clamp).Ok?
            <==> Accepts(quantity, capacity, clamp)
                 && (SpareCapacity(tanks) > 0.0 || quantity > capacity || quantity <= 2.0 * RoundFuel(quantity / 2.0, u) + 0.01)
  {
    var quantity := QtyFromLb(blockFuelLb, u, lbPerGal);
    QtyNonNegative(blockFuelLb, u, lbPerGal);
    DistributeAcceptsIff(blockFuelLb, tanks, u, lbPerGal, clamp);
    EnoughIff(tanks, u, quantity);
  }

  lemma EnoughIff(tanks: seq<Tank>, u: Unit, quantity: real)
    requires GridCapacities(tanks, u) && EqualSides(Capacities(tanks), SYMMETRIC_PAIRS) && quantity >= 0.0
    ensures !FallsShort(tanks, u, quantity)
            <==> SpareCapacity(tanks) > 0.0 || quantity > CapacityTotal(tanks) || quantity <= 2.0 * RoundFuel(quantity / 2.0, u) + 0.01
  {
    RestNonNegative(tanks, PairedIn(Capacities(tanks), SYMMETRIC_PAIRS));
    FallsShortIff(tanks, u, quantity);
  }

  lemma QtyNonNegative(lb: real, u: Unit, lbPerGal: real)
    requires lb >= 0.0 && lbPerGal > 0.0
    ensures QtyFromLb(lb, u, lbPerGal) >= 0.0
  {
    match u
    case Gallons => QuotientSign(lb, lbPerGal);
    case Pounds =>
    case Kilograms => QuotientSign(lb, KG_TO_LB);
    case Liters => QuotientSign(lb, lbPerGal / LITERS_PER_GAL);
  }

  /** Gallons and liters are kept to the hundredth, pounds and kilograms to the unit. */
  lemma UnitGrids(x: real)
    ensures forall u <- [Gallons, Liters] :: Whole(RoundFuel(x, u) * 100.0) && x - 0.005 < RoundFuel(x, u) <= x + 0.005
    ensures forall u <- [Pounds, Kilograms] :: Whole(RoundFuel(x, u)) && x - 0.5 < RoundFuel(x, u) <= x + 0.5
  {
    forall u <- [Gallons, Liters] ensures Whole(RoundFuel(x, u) * 100.0) && x - 0.005 < RoundFuel(x, u) <= x + 0.005 {
      RoundGrid(x, u);
    }
    forall u <- [Pounds, Kilograms] ensures Whole(RoundFuel(x, u)) && x - 0.5 < RoundFuel(x, u) <= x + 0.5 {
      RoundGrid(x, u);
    }
  }

  lemma QuotientTimes(a: real, b: real)
    requires b > 0.0
    ensures (a / b) * b == a
  {
  }

  /** Converting pounds to tank quantities and back changes nothing. */
  lemma UnitsRoundTrip(lb: real, u: Unit, lbPerGal: real)
    requires lbPerGal > 0.0
    ensures LbFromQty(QtyFromLb(lb, u, lbPerGal), u, lbPerGal) == lb
  {
    match u
    case Gallons => QuotientTimes(lb, lbPerGal);
    case Pounds =>
    case Kilograms => QuotientTimes(lb, KG_TO_LB);
    case Liters => QuotientTimes(lb, lbPerGal / LITERS_PER_GAL);
  }

  /** One unit of each kind in pounds: a gallon its density, a kilogram 2.2046226218 lb, and 3.785411784 liters
      a gallon. */
  lemma OneUnitWeighs(lbPerGal: real)
    requires lbPerGal > 0.0
    ensures LbFromQty(1.0, Gallons, lbPerGal) == lbPerGal && LbFromQty(1.0, Pounds, lbPerGal) == 1.0
    ensures LbFromQty(1.0, Kilograms, lbPerGal) == 2.2046226218
    ensures LbFromQty(3.785411784, Liters, lbPerGal) == lbPerGal
  {
    QuotientTimes(lbPerGal, 3.785411784);
  }

  lemma QuotientSign(a: real, b: real)
    requires a >= 0.0 && b > 0.0
    ensures a / b >= 0.0
  {
    var q := a / b;
    assert q * b == a;
    assert q < 0.0 ==> q * b < 0.0;
  }

  /** What an accepted request gets: every tank between empty and full, the total within half a step of
      what was asked for or at most a step above it (of the capacity, when clamped), and when clamped
      every tank bigger than 0.01 full. */
  lemma DistributeDelivers(blockFuelLb: real, tanks: seq<Tank>, u: Unit, lbPerGal: real, clamp: bool, i: string)
    requires GridCapacities(tanks, u) && blockFuelLb >= 0.0 && lbPerGal > 0.0 && i in Ids(tanks)
    requires Distributed(blockFuelLb, tanks, u, lbPerGal, clamp).Ok?
    ensures var f := Distributed(blockFuelLb, tanks, u, lbPerGal, clamp).value;
            var asked := if f.clamped then f.capacityTotal else QtyFromLb(blockFuelLb, u, lbPerGal);
            && 0.0 <= Qty(f.tanks, i) <= Qty(Capacities(tanks), i)
            && NearlyPlaced(asked - Total(f.tanks, Ids(tanks)), u)
            && (f.clamped && Qty(Capacities(tanks), i) > 0.01 ==> Qty(f.tanks, i) == Qty(Capacities(tanks), i))
            && (f.clamped <==> QtyFromLb(blockFuelLb, u, lbPerGal) > CapacityTotal(tanks) + 0.05)
  {
    CapacityTotalIs(tanks);
    QtyNonNegative(blockFuelLb, u, lbPerGal);
    var q := QtyFromLb(blockFuelLb, u, lbPerGal);
    var asked := if q > CapacityTotal(tanks) + 0.05 then CapacityTotal(tanks) else q;
    SplitPlaces(tanks, u, asked);
    if q > CapacityTotal(tanks) + 0.05 && Qty(Capacities(tanks), i) > 0.01 {
      SplitFillsUp(tanks, u, i);
    }
  }

  /** A request on the grid of its unit that fits is accepted, in any unit and for any tanks. */
  lemma WholeRequestIsAccepted(blockFuelLb: real, tanks: seq<Tank>, u: Unit, lbPerGal: real, clamp: bool)
    requires GridCapacities(tanks, u) && blockFuelLb >= 0.0 && lbPerGal > 0.0 && CapacityTotal(tanks) > 0.0
    requires OnGrid(QtyFromLb(blockFuelLb, u, lbPerGal), u) && QtyFromLb(blockFuelLb, u, lbPerGal) <= CapacityTotal(tanks)
    ensures Distributed(blockFuelLb, tanks, u, lbPerGal, clamp).Ok?
  {
    QtyNonNegative(blockFuelLb, u, lbPerGal);
    NeverShort(tanks, u, QtyFromLb(blockFuelLb, u, lbPerGal));
    DistributeAcceptsIff(blockFuelLb, tanks, u, lbPerGal, clamp);
  }

  /** Where one tank with room is in no pair, and in hundredths, only the capacity decides. */
  lemma SpareTankAcceptsIff(blockFuelLb: real, tanks: seq<Tank>, u: Unit, lbPerGal: real, clamp: bool)
    requires GridCapacities(tanks, u) && blockFuelLb >= 0.0 && lbPerGal > 0.0 && CapacityTotal(tanks) > 0.0
    requires Hundredths(u) || SpareCapacity(tanks) > 0.0
    ensures Distributed(blockFuelLb, tanks, u, lbPerGal, clamp).Ok?
            <==> Accepts(QtyFromLb(blockFuelLb, u, lbPerGal), CapacityTotal(tanks), clamp)
  {
    QtyNonNegative(blockFuelLb, u, lbPerGal);
    NeverShort(tanks, u, QtyFromLb(blockFuelLb, u, lbPerGal));
    DistributeAcceptsIff(blockFuelLb, tanks, u, lbPerGal, clamp);
  }
}
