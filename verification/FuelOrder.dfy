/** Which tanks are filled first: the mains, then the AUX and the TIP pair, then the other tanks in profile
    order. */
module {:induction false} FuelOrder {
  import opened Options
  import opened Weights
  import opened LoadErrors
  import opened FuelSplit
  import opened FuelSplitLaws

  predicate PairFull(f: Fill, cap: Quantities, u: Unit, pair: Pair) {
    Qty(f.qty, pair.0) == RoundFuel(Qty(cap, pair.0), u) && Qty(f.qty, pair.1) == RoundFuel(Qty(cap, pair.1), u)
  }

  // ---- crumbs ----

  /** Either both sides of a pair hold half a step or neither does. */
  predicate SameUse(leftCap: real, rightCap: real, u: Unit) {
    RoundFuel(leftCap, u) == 0.0 <==> RoundFuel(rightCap, u) == 0.0
  }

  lemma RoomRounds(x: real, u: Unit)
    requires x >= 0.0
    ensures RoundFuel(x, u) == 0.0 <==> x < Step(u) / 2.0
  {
    RoundGrid(x, u);
  }

  /** A pair that is asked for less than a step gets at most one step. */
  lemma CrumbShares(remaining: real, leftCap: real, rightCap: real, u: Unit)
    requires 0.0 <= leftCap && 0.0 <= rightCap && -Step(u) <= remaining < Step(u)
    ensures var s := Shares(Min(remaining, leftCap + rightCap), leftCap, rightCap);
            && RoundFuel(s.0, u) + RoundFuel(s.1, u) <= Step(u)
            && (SameUse(leftCap, rightCap, u) || remaining < Min(leftCap, rightCap) + Step(u) / 2.0 ==>
                  RoundFuel(s.0, u) == 0.0 && RoundFuel(s.1, u) == 0.0)
  {
    var s := Shares(Min(remaining, leftCap + rightCap), leftCap, rightCap);
    RoundGrid(s.0, u);
    RoundGrid(s.1, u);
    OneStepAtMost(s.0, s.1, u);
    RoomRounds(leftCap, u);
    RoomRounds(rightCap, u);
    if SameUse(leftCap, rightCap, u) || remaining < Min(leftCap, rightCap) + Step(u) / 2.0 {
      assert s.0 < Step(u) / 2.0 && s.1 < Step(u) / 2.0;
    }
  }

  lemma OneStepAtMost(a: real, b: real, u: Unit)
    requires a + b < Step(u)
    ensures RoundFuel(a, u) + RoundFuel(b, u) <= Step(u)
  {
    if Hundredths(u) {
      var m, n := (a * 100.0 + 0.5).Floor, (b * 100.0 + 0.5).Floor;
      assert m as real + n as real <= (a + b) * 100.0 + 1.0 < 2.0;
      assert m + n <= 1;
    } else {
      var m, n := (a + 0.5).Floor, (b + 0.5).Floor;
      assert m as real + n as real <= a + b + 1.0 < 2.0;
      assert m + n <= 1;
    }
  }

  /** Fuel of a pair. */
  function PairQty(f: Fill, pair: Pair): real {
    Qty(f.qty, pair.0) + Qty(f.qty, pair.1)
  }

  /** What a pair carries when it comes to less than a step. */
  predicate PairCrumb(f: Fill, cap: Quantities, u: Unit, pair: Pair) {
    && PairQty(f, pair) <= Step(u)
    && (SameUse(Qty(cap, pair.0), Qty(cap, pair.1), u) ==> PairQty(f, pair) == 0.0)
  }

  // ---- the pairs ----

  lemma Untouched(f: Fill, cap: Quantities, u: Unit, pairs: seq<Pair>, pair: Pair)
    requires forall p <- pairs :: p.0 != pair.0 && p.1 != pair.0 && p.0 != pair.1 && p.1 != pair.1
    ensures var g := FillPairs(f, cap, u, pairs);
            Qty(g.qty, pair.0) == Qty(f.qty, pair.0) && Qty(g.qty, pair.1) == Qty(f.qty, pair.1)
  {
    PairsElsewhere(f, cap, u, pairs, pair.0);
    PairsElsewhere(f, cap, u, pairs, pair.1);
  }

  lemma HeadApart(pairs: seq<Pair>)
    requires DisjointPairs(pairs) && pairs != []
    ensures forall p <- pairs[1..] :: p.0 != pairs[0].0 && p.1 != pairs[0].0 && p.0 != pairs[0].1 && p.1 != pairs[0].1
  {
    forall p <- pairs[1..] ensures p.0 != pairs[0].0 && p.1 != pairs[0].0 && p.0 != pairs[0].1 && p.1 != pairs[0].1 {
      var k :| 0 <= k < |pairs[1..]| && pairs[1..][k] == p;
      assert pairs[k + 1] == p;
    }
  }

  ghost predicate Ready(f: Fill, cap: Quantities, u: Unit, pairs: seq<Pair>, ids: seq<string>) {
    && TankTable(cap, ids) && Bounded(f, cap, ids, u)
    && DisjointPairs(pairs) && forall p <- pairs :: Fresh(f, p)
  }

  lemma ReadyNext(f: Fill, cap: Quantities, u: Unit, pairs: seq<Pair>, ids: seq<string>)
    requires Ready(f, cap, u, pairs, ids) && pairs != []
    ensures Ready(FillPair(f, cap, u, pairs[0]), cap, u, pairs[1..], ids)
  {
    FreshAfter(f, cap, u, pairs);
    assert pairs[0] in pairs;
    if Present(cap, pairs[0]) {
      var _, _ := PairTurn(f, cap, u, pairs[0], ids);
    }
  }

  predicate Mapped(ids: seq<string>, pair: Pair) {
    pair.0 in ids && pair.1 in ids
  }

  /** Once less than a step is left, every pair that follows gets a crumb. */
  lemma CrumbsFollow(f: Fill, cap: Quantities, u: Unit, pairs: seq<Pair>, ids: seq<string>, k: nat)
    requires Ready(f, cap, u, pairs, ids) && f.remaining < Step(u) && k < |pairs|
    ensures Mapped(ids, pairs[k]) ==> PairCrumb(FillPairs(f, cap, u, pairs), cap, u, pairs[k])
    ensures FillPairs(f, cap, u, pairs).remaining < Step(u)
    decreases pairs
  {
    var p := pairs[0];
    var g := FillPair(f, cap, u, p);
    ReadyNext(f, cap, u, pairs, ids);
    HeadApart(pairs);
    CrumbPair(f, cap, u, p, ids);
    Untouched(g, cap, u, pairs[1..], p);
    if k > 0 {
      CrumbsFollow(g, cap, u, pairs[1..], ids, k - 1);
    } else if |pairs| > 1 {
      CrumbsFollow(g, cap, u, pairs[1..], ids, 0);
    }
  }

  lemma CrumbPair(f: Fill, cap: Quantities, u: Unit, p: Pair, ids: seq<string>)
    requires TankTable(cap, ids) && Bounded(f, cap, ids, u) && Fresh(f, p) && f.remaining < Step(u)
    ensures Mapped(ids, p) ==> PairCrumb(FillPair(f, cap, u, p), cap, u, p)
    ensures FillPair(f, cap, u, p).remaining < Step(u)
  {
    if Present(cap, p) {
      var _ := CrumbTurn(f, cap, u, p);
      var left, right := PairTurn(f, cap, u, p, ids);
    }
  }

  lemma CrumbTurn(f: Fill, cap: Quantities, u: Unit, p: Pair) returns (g: Fill)
    requires Present(cap, p) && 0.0 <= cap[p.0] && 0.0 <= cap[p.1] && p.0 != p.1 && -Step(u) <= f.remaining < Step(u)
    ensures g == FillPair(f, cap, u, p) && PairCrumb(g, cap, u, p)
  {
    g := FillPair(f, cap, u, p);
    CrumbShares(f.remaining, cap[p.0], cap[p.1], u);
  }

  /** A pair is full, or all that follow get crumbs. */
  lemma FullOrCrumbs(f: Fill, cap: Quantities, u: Unit, pairs: seq<Pair>, ids: seq<string>, k: nat, l: nat)
    requires Ready(f, cap, u, pairs, ids) && k < l < |pairs| && Mapped(ids, pairs[k]) && Mapped(ids, pairs[l])
    ensures var g := FillPairs(f, cap, u, pairs);
            PairFull(g, cap, u, pairs[k]) || PairCrumb(g, cap, u, pairs[l])
    decreases pairs
  {
    var p := pairs[0];
    var g := FillPair(f, cap, u, p);
    ReadyNext(f, cap, u, pairs, ids);
    if k > 0 {
      FullOrCrumbs(g, cap, u, pairs[1..], ids, k - 1, l - 1);
    } else {
      HeadApart(pairs);
      Untouched(g, cap, u, pairs[1..], p);
      HeadFills(f, cap, u, p, ids);
      if !PairFull(g, cap, u, p) {
        CrumbsFollow(g, cap, u, pairs[1..], ids, l - 1);
      }
    }
  }

  lemma HeadFills(f: Fill, cap: Quantities, u: Unit, p: Pair, ids: seq<string>)
    requires TankTable(cap, ids) && Bounded(f, cap, ids, u) && Fresh(f, p) && Mapped(ids, p)
    ensures PairFull(FillPair(f, cap, u, p), cap, u, p) || FillPair(f, cap, u, p).remaining < Step(u)
  {
    if Present(cap, p) {
      var _, _ := PairTurn(f, cap, u, p, ids);
    } else {
      RoundGrid(0.0, u);
    }
  }

  /** A pair is full, or less than a step is left after the pairs. */
  lemma FullOrSpent(f: Fill, cap: Quantities, u: Unit, pairs: seq<Pair>, ids: seq<string>, k: nat)
    requires Ready(f, cap, u, pairs, ids) && k < |pairs| && Mapped(ids, pairs[k])
    ensures var g := FillPairs(f, cap, u, pairs);
            PairFull(g, cap, u, pairs[k]) || g.remaining < Step(u)
    decreases pairs
  {
    var p := pairs[0];
    var g := FillPair(f, cap, u, p);
    ReadyNext(f, cap, u, pairs, ids);
    if k > 0 {
      FullOrSpent(g, cap, u, pairs[1..], ids, k - 1);
    } else {
      HeadApart(pairs);
      Untouched(g, cap, u, pairs[1..], p);
      HeadFills(f, cap, u, p, ids);
      if !PairFull(g, cap, u, p) && |pairs| > 1 {
        CrumbsFollow(g, cap, u, pairs[1..], ids, 0);
      }
    }
  }

  // ---- the other tanks ----

  /** The first tank the last loop serves is full, or no other one gains. */
  lemma FirstFills(f: Fill, tanks: seq<Tank>, cap: Quantities, u: Unit, ids: seq<string>, l: nat)
    requires DistinctIds(tanks) && TankTable(cap, ids) && Bounded(f, cap, ids, u) && f.remaining > 0.01 && Listed(tanks, cap, ids)
    requires 0 < l < |tanks| && tanks[0].id !in f.used
    requires Qty(FillRest(f, tanks, u).qty, tanks[l].id) > Qty(f.qty, tanks[l].id)
    ensures Qty(FillRest(f, tanks, u).qty, tanks[0].id) == RoundFuel(CapacityOf(tanks[0]), u)
  {
    var g := FillOne(f, tanks[0], u);
    TailListed(tanks, cap, ids);
    OneFilled(f, tanks[0], cap, u, ids);
    assert g.remaining > 0.01;
    RestKeepsBounds(g, tanks[1..], cap, u, ids);
  }

  /** The last loop over two lists in a row. */
  lemma RestAppend(f: Fill, a: seq<Tank>, b: seq<Tank>, u: Unit)
    requires f.remaining > 0.01
    ensures FillRest(f, a + b, u)
         == if FillRest(f, a, u).remaining <= 0.01 then FillRest(f, a, u) else FillRest(FillRest(f, a, u), b, u)
    decreases a
  {
    if a == [] {
      assert a + b == b;
    } else {
      assert (a + b)[1..] == a[1..] + b && (a + b)[0] == a[0];
      if a[0].id in f.used {
        RestAppend(f, a[1..], b, u);
      } else if FillOne(f, a[0], u).remaining > 0.01 {
        RestAppend(FillOne(f, a[0], u), a[1..], b, u);
      }
    }
  }

  lemma RestElsewhere(f: Fill, tanks: seq<Tank>, u: Unit, i: string)
    requires forall t <- tanks :: t.id != i
    ensures Qty(FillRest(f, tanks, u).qty, i) == Qty(f.qty, i) && (i in FillRest(f, tanks, u).used <==> i in f.used)
    decreases tanks
  {
    if tanks != [] {
      assert tanks[0] in tanks && tanks == [tanks[0]] + tanks[1..];
      RestElsewhere(f, tanks[1..], u, i);
      RestElsewhere(FillOne(f, tanks[0], u), tanks[1..], u, i);
    }
  }

  lemma PrefixApart(tanks: seq<Tank>, k: nat, l: nat)
    requires DistinctIds(tanks) && k <= l < |tanks|
    ensures forall t <- tanks[..k] :: t.id != tanks[l].id
    ensures DistinctIds(tanks[k..])
  {
    forall t <- tanks[..k] ensures t.id != tanks[l].id {
      var j :| 0 <= j < k && tanks[j] == t;
    }
  }

  lemma ListedParts(tanks: seq<Tank>, cap: Quantities, ids: seq<string>, k: nat)
    requires Listed(tanks, cap, ids) && k <= |tanks|
    ensures Listed(tanks[..k], cap, ids) && Listed(tanks[k..], cap, ids)
  {
  }

  lemma RestSplit(f: Fill, a: seq<Tank>, b: seq<Tank>, cap: Quantities, u: Unit, ids: seq<string>, m: nat)
    requires TankTable(cap, ids) && Bounded(f, cap, ids, u) && f.remaining > 0.01 && Listed(a, cap, ids) && Listed(b, cap, ids)
    requires DistinctIds(b) && 0 < m < |b| && b[0].id !in f.used
    requires forall t <- a :: t.id != b[0].id && t.id != b[m].id
    requires Qty(FillRest(f, a + b, u).qty, b[m].id) > Qty(f.qty, b[m].id)
    ensures Qty(FillRest(f, a + b, u).qty, b[0].id) == RoundFuel(CapacityOf(b[0]), u)
  {
    var e := FillRest(f, a, u);
    RestAppend(f, a, b, u);
    assert Qty(e.qty, b[m].id) == Qty(f.qty, b[m].id) by {
      RestElsewhere(f, a, u, b[m].id);
    }
    assert e.remaining > 0.01;
    assert b[0].id !in e.used by {
      RestElsewhere(f, a, u, b[0].id);
    }
    assert Bounded(e, cap, ids, u) by {
      RestKeepsBounds(f, a, cap, u, ids);
    }
    FirstFills(e, b, cap, u, ids, m);
  }

  /** Among the tanks the last loop serves, one that gains has every earlier one full. */
  lemma RestInOrder(f: Fill, tanks: seq<Tank>, cap: Quantities, u: Unit, ids: seq<string>, k: nat, l: nat)
    requires DistinctIds(tanks) && TankTable(cap, ids) && Bounded(f, cap, ids, u) && f.remaining > 0.01 && Listed(tanks, cap, ids)
    requires k < l < |tanks| && tanks[k].id !in f.used
    requires Qty(FillRest(f, tanks, u).qty, tanks[l].id) > Qty(f.qty, tanks[l].id)
    ensures Qty(FillRest(f, tanks, u).qty, tanks[k].id) == RoundFuel(CapacityOf(tanks[k]), u)
  {
    var a, b := tanks[..k], tanks[k..];
    assert tanks == a + b && b[0] == tanks[k] && b[l - k] == tanks[l];
    assert forall t <- a :: t.id != b[0].id && t.id != b[l - k].id by {
      PrefixApart(tanks, k, k);
      PrefixApart(tanks, k, l);
    }
    assert DistinctIds(b) by {
      PrefixApart(tanks, k, k);
    }
    assert Listed(a, cap, ids) && Listed(b, cap, ids) by {
      ListedParts(tanks, cap, ids, k);
    }
    RestSplit(f, a, b, cap, u, ids, l - k);
  }

  lemma TailListed(tanks: seq<Tank>, cap: Quantities, ids: seq<string>)
    requires DistinctIds(tanks) && Listed(tanks, cap, ids) && tanks != []
    ensures DistinctIds(tanks[1..]) && Listed(tanks[1..], cap, ids)
    ensures tanks[0].id in ids && tanks[0].id in cap && cap[tanks[0].id] == CapacityOf(tanks[0])
    ensures forall k | 0 < k < |tanks| :: tanks[k].id != tanks[0].id
  {
    assert tanks[0] in tanks && tanks == [tanks[0]] + tanks[1..];
  }

  lemma OneFilled(f: Fill, t: Tank, cap: Quantities, u: Unit, ids: seq<string>)
    requires TankTable(cap, ids) && Bounded(f, cap, ids, u) && f.remaining > 0.01
    requires t.id !in f.used && t.id in ids && cap[t.id] == CapacityOf(t)
    ensures Bounded(FillOne(f, t, u), cap, ids, u)
    ensures FillOne(f, t, u).remaining > 0.01 ==> Qty(FillOne(f, t, u).qty, t.id) == RoundFuel(CapacityOf(t), u)
  {
    RoundInside(Min(f.remaining, cap[t.id]), cap[t.id], u);
  }

  /** From less than a step a tank gets one step at most. */
  lemma RestCrumbs(f: Fill, tanks: seq<Tank>, cap: Quantities, u: Unit, ids: seq<string>, i: string)
    requires TankTable(cap, ids) && Bounded(f, cap, ids, u) && 0.01 < f.remaining < Step(u) && Listed(tanks, cap, ids)
    ensures Qty(FillRest(f, tanks, u).qty, i) <= Max(Qty(f.qty, i), Step(u))
    decreases tanks
  {
    if tanks != [] {
      var t := tanks[0];
      assert t in tanks && tanks == [t] + tanks[1..];
      if t.id in f.used {
        RestCrumbs(f, tanks[1..], cap, u, ids, i);
      } else {
        var g := FillOne(f, t, u);
        var take := Min(f.remaining, cap[t.id]);
        RoundInside(take, cap[t.id], u);
        RoundInside(take, Step(u), u);
        StepIsOnGrid(u);
        assert Bounded(g, cap, ids, u);
        if g.remaining > 0.01 {
          RestCrumbs(g, tanks[1..], cap, u, ids, i);
        }
      }
    }
  }

  lemma StepIsOnGrid(u: Unit)
    ensures OnGrid(Step(u), u) && RoundFuel(Step(u), u) == Step(u)
  {
    FloorIs(1.0, 1);
    FloorIs(1.5, 1);
  }

  // ---- the whole split ----

  ghost predicate FullPair(q: Quantities, tanks: seq<Tank>, u: Unit, left: string, right: string) {
    && Qty(q, left) == RoundFuel(Qty(Capacities(tanks), left), u)
    && Qty(q, right) == RoundFuel(Qty(Capacities(tanks), right), u)
  }

  /** No more than one step in the two tanks together, and none when both hold half a step or neither does. */
  ghost predicate Crumb(q: Quantities, tanks: seq<Tank>, u: Unit, left: string, right: string) {
    && Qty(q, left) + Qty(q, right) <= Step(u)
    && (SameUse(Qty(Capacities(tanks), left), Qty(Capacities(tanks), right), u) ==> Qty(q, left) == Qty(q, right) == 0.0)
  }

  /** More than rounding can leave behind. */
  predicate Carries(q: Quantities, u: Unit, i: string) {
    Qty(q, i) > (if Hundredths(u) then 0.0 else Step(u))
  }

  lemma ThreePairs(k: nat)
    requires k < 3
    ensures |SYMMETRIC_PAIRS| == 3
    ensures SYMMETRIC_PAIRS[k] == if k == 0 then ("LEFT_MAIN", "RIGHT_MAIN") else if k == 1 then ("LEFT_AUX", "RIGHT_AUX") else ("LEFT_TIP", "RIGHT_TIP")
  {
  }

  lemma StartReady(tanks: seq<Tank>, u: Unit, quantity: real)
    requires Capacitated(tanks) && quantity >= 0.0
    ensures Ready(Start(tanks, quantity), Capacities(tanks), u, SYMMETRIC_PAIRS, Ids(tanks))
  {
    TableOf(tanks);
    StartBounded(tanks, u, quantity);
  }

  /** What the pairs hold after the first loop they hold in the end. */
  lemma PairStays(tanks: seq<Tank>, u: Unit, quantity: real, k: nat)
    requires Capacitated(tanks) && quantity >= 0.0 && k < |SYMMETRIC_PAIRS| && Mapped(Ids(tanks), SYMMETRIC_PAIRS[k])
    ensures var f, g := AfterPairs(tanks, u, quantity), Split(quantity, tanks, u);
            var p := SYMMETRIC_PAIRS[k];
            Qty(g.qty, p.0) == Qty(f.qty, p.0) && Qty(g.qty, p.1) == Qty(f.qty, p.1)
  {
    var f, g := AfterPairs(tanks, u, quantity), Split(quantity, tanks, u);
    TableOf(tanks);
    StartBounded(tanks, u, quantity);
    PairsLevel(Start(tanks, quantity), Capacities(tanks), u, SYMMETRIC_PAIRS, Ids(tanks), k);
    SplitBounded(tanks, u, quantity);
    AfterPairsBounds(tanks, u, quantity);
    UsedOrEmpty(f, g, Capacities(tanks), Ids(tanks), u, SYMMETRIC_PAIRS[k]);
  }

  lemma UsedOrEmpty(f: Fill, g: Fill, cap: Quantities, ids: seq<string>, u: Unit, p: Pair)
    requires TankTable(cap, ids) && Bounded(f, cap, ids, u) && Bounded(g, cap, ids, u) && Mapped(ids, p)
    requires Present(cap, p) ==> p.0 in f.used && p.1 in f.used
    requires forall i <- f.used :: Qty(g.qty, i) == Qty(f.qty, i)
    ensures Qty(g.qty, p.0) == Qty(f.qty, p.0) && Qty(g.qty, p.1) == Qty(f.qty, p.1)
  {
    if !Present(cap, p) {
      RoundGrid(0.0, u);
      assert cap[p.0] == 0.0 && cap[p.1] == 0.0;
    }
  }

  lemma PairOrder(tanks: seq<Tank>, u: Unit, quantity: real, k: nat, l: nat)
    requires Capacitated(tanks) && quantity >= 0.0 && k < l < |SYMMETRIC_PAIRS|
    requires Mapped(Ids(tanks), SYMMETRIC_PAIRS[k]) && Mapped(Ids(tanks), SYMMETRIC_PAIRS[l])
    ensures var q := Split(quantity, tanks, u).qty;
            var a, b := SYMMETRIC_PAIRS[k], SYMMETRIC_PAIRS[l];
            FullPair(q, tanks, u, a.0, a.1) || Crumb(q, tanks, u, b.0, b.1)
  {
    StartReady(tanks, u, quantity);
    FullOrCrumbs(Start(tanks, quantity), Capacities(tanks), u, SYMMETRIC_PAIRS, Ids(tanks), k, l);
    PairStays(tanks, u, quantity, k);
    PairStays(tanks, u, quantity, l);
    SplitBounded(tanks, u, quantity);
  }

  /** The mains come before the AUX pair, both before the TIP pair: a later pair carries more than a crumb only
      when the earlier one is full. */
  lemma MainsFirst(tanks: seq<Tank>, u: Unit, quantity: real)
    requires Capacitated(tanks) && quantity >= 0.0
    ensures var ids, q := Ids(tanks), Split(quantity, tanks, u).qty;
            && ("LEFT_MAIN" in ids && "RIGHT_MAIN" in ids && "LEFT_AUX" in ids && "RIGHT_AUX" in ids ==>
                  FullPair(q, tanks, u, "LEFT_MAIN", "RIGHT_MAIN") || Crumb(q, tanks, u, "LEFT_AUX", "RIGHT_AUX"))
            && ("LEFT_MAIN" in ids && "RIGHT_MAIN" in ids && "LEFT_TIP" in ids && "RIGHT_TIP" in ids ==>
                  FullPair(q, tanks, u, "LEFT_MAIN", "RIGHT_MAIN") || Crumb(q, tanks, u, "LEFT_TIP", "RIGHT_TIP"))
            && ("LEFT_AUX" in ids && "RIGHT_AUX" in ids && "LEFT_TIP" in ids && "RIGHT_TIP" in ids ==>
                  FullPair(q, tanks, u, "LEFT_AUX", "RIGHT_AUX") || Crumb(q, tanks, u, "LEFT_TIP", "RIGHT_TIP"))
  {
    var ids := Ids(tanks);
    ThreePairs(0);
    ThreePairs(1);
    ThreePairs(2);
    if Mapped(ids, SYMMETRIC_PAIRS[0]) && Mapped(ids, SYMMETRIC_PAIRS[1]) {
      PairOrder(tanks, u, quantity, 0, 1);
    }
    if Mapped(ids, SYMMETRIC_PAIRS[0]) && Mapped(ids, SYMMETRIC_PAIRS[2]) {
      PairOrder(tanks, u, quantity, 0, 2);
    }
    if Mapped(ids, SYMMETRIC_PAIRS[1]) && Mapped(ids, SYMMETRIC_PAIRS[2]) {
      PairOrder(tanks, u, quantity, 1, 2);
    }
  }

  lemma PairsBeforeRest(tanks: seq<Tank>, u: Unit, quantity: real, k: nat, i: string)
    requires Capacitated(tanks) && quantity >= 0.0 && k < |SYMMETRIC_PAIRS| && Mapped(Ids(tanks), SYMMETRIC_PAIRS[k])
    requires i in Ids(tanks) && i !in PairedIn(Capacities(tanks), SYMMETRIC_PAIRS) && Carries(Split(quantity, tanks, u).qty, u, i)
    ensures FullPair(Split(quantity, tanks, u).qty, tanks, u, SYMMETRIC_PAIRS[k].0, SYMMETRIC_PAIRS[k].1)
  {
    var f := AfterPairs(tanks, u, quantity);
    TableOf(tanks);
    StartReady(tanks, u, quantity);
    FullOrSpent(Start(tanks, quantity), Capacities(tanks), u, SYMMETRIC_PAIRS, Ids(tanks), k);
    AfterPairsBounds(tanks, u, quantity);
    assert Qty(f.qty, i) == 0.0;
    PairStays(tanks, u, quantity, k);
    if 0.01 < f.remaining < Step(u) {
      RestCrumbs(f, tanks, Capacities(tanks), u, Ids(tanks), i);
    }
  }

  /** A tank in no pair carries fuel only when every mapped pair is full. */
  lemma PairsFirst(tanks: seq<Tank>, u: Unit, quantity: real, i: string)
    requires Capacitated(tanks) && quantity >= 0.0 && i in Ids(tanks)
    requires i !in PairedIn(Capacities(tanks), SYMMETRIC_PAIRS) && Carries(Split(quantity, tanks, u).qty, u, i)
    ensures var ids, q := Ids(tanks), Split(quantity, tanks, u).qty;
            && ("LEFT_MAIN" in ids && "RIGHT_MAIN" in ids ==> FullPair(q, tanks, u, "LEFT_MAIN", "RIGHT_MAIN"))
            && ("LEFT_AUX" in ids && "RIGHT_AUX" in ids ==> FullPair(q, tanks, u, "LEFT_AUX", "RIGHT_AUX"))
            && ("LEFT_TIP" in ids && "RIGHT_TIP" in ids ==> FullPair(q, tanks, u, "LEFT_TIP", "RIGHT_TIP"))
  {
    ThreePairs(0);
    ThreePairs(1);
    ThreePairs(2);
    if Mapped(Ids(tanks), SYMMETRIC_PAIRS[0]) {
      PairsBeforeRest(tanks, u, quantity, 0, i);
    }
    if Mapped(Ids(tanks), SYMMETRIC_PAIRS[1]) {
      PairsBeforeRest(tanks, u, quantity, 1, i);
    }
    if Mapped(Ids(tanks), SYMMETRIC_PAIRS[2]) {
      PairsBeforeRest(tanks, u, quantity, 2, i);
    }
  }

  /** Among those tanks, one carries fuel only when every one before it in the profile is full. */
  lemma ProfileOrder(tanks: seq<Tank>, u: Unit, quantity: real, k: nat, l: nat)
    requires Capacitated(tanks) && quantity >= 0.0 && k < l < |tanks|
    requires tanks[k].id !in PairedIn(Capacities(tanks), SYMMETRIC_PAIRS) && tanks[l].id !in PairedIn(Capacities(tanks), SYMMETRIC_PAIRS)
    requires Qty(Split(quantity, tanks, u).qty, tanks[l].id) > 0.0
    ensures Qty(Split(quantity, tanks, u).qty, tanks[k].id) == RoundFuel(CapacityOf(tanks[k]), u)
  {
    var f := AfterPairs(tanks, u, quantity);
    TableOf(tanks);
    AfterPairsBounds(tanks, u, quantity);
    assert Ids(tanks)[k] == tanks[k].id && Ids(tanks)[l] == tanks[l].id;
    assert Qty(f.qty, tanks[l].id) == 0.0;
    RestInOrder(f, tanks, Capacities(tanks), u, Ids(tanks), k, l);
  }

  /** The tanks of an accepted plan are the split of the request, or of the capacity when it was clamped. */
  lemma PlanIsSplit(blockFuelLb: real, tanks: seq<Tank>, u: Unit, lbPerGal: real, clamp: bool) returns (asked: real)
    requires Capacitated(tanks) && blockFuelLb >= 0.0 && lbPerGal > 0.0
    requires Distributed(blockFuelLb, tanks, u, lbPerGal, clamp).Ok?
    ensures asked >= 0.0 && Distributed(blockFuelLb, tanks, u, lbPerGal, clamp).value.tanks == Split(asked, tanks, u).qty
    ensures asked == QtyFromLb(blockFuelLb, u, lbPerGal) || (clamp && asked == CapacityTotal(tanks))
  {
    var quantity := QtyFromLb(blockFuelLb, u, lbPerGal);
    QtyNonNegative(blockFuelLb, u, lbPerGal);
    CapacityTotalIs(tanks);
    asked := if quantity > CapacityTotal(tanks) + 0.05 then CapacityTotal(tanks) else quantity;
  }

  /** So in every accepted plan fuel goes to the mains first, then to the AUX pair, then to the TIP pair. */
  lemma PlanFillsMainsFirst(blockFuelLb: real, tanks: seq<Tank>, u: Unit, lbPerGal: real, clamp: bool)
    requires Capacitated(tanks) && blockFuelLb >= 0.0 && lbPerGal > 0.0
    requires Distributed(blockFuelLb, tanks, u, lbPerGal, clamp).Ok?
    ensures var ids, q := Ids(tanks), Distributed(blockFuelLb, tanks, u, lbPerGal, clamp).value.tanks;
            && ("LEFT_MAIN" in ids && "RIGHT_MAIN" in ids && "LEFT_AUX" in ids && "RIGHT_AUX" in ids ==>
                  FullPair(q, tanks, u, "LEFT_MAIN", "RIGHT_MAIN") || Crumb(q, tanks, u, "LEFT_AUX", "RIGHT_AUX"))
            && ("LEFT_MAIN" in ids && "RIGHT_MAIN" in ids && "LEFT_TIP" in ids && "RIGHT_TIP" in ids ==>
                  FullPair(q, tanks, u, "LEFT_MAIN", "RIGHT_MAIN") || Crumb(q, tanks, u, "LEFT_TIP", "RIGHT_TIP"))
            && ("LEFT_AUX" in ids && "RIGHT_AUX" in ids && "LEFT_TIP" in ids && "RIGHT_TIP" in ids ==>
                  FullPair(q, tanks, u, "LEFT_AUX", "RIGHT_AUX") || Crumb(q, tanks, u, "LEFT_TIP", "RIGHT_TIP"))
  {
    var asked := PlanIsSplit(blockFuelLb, tanks, u, lbPerGal, clamp);
    MainsFirst(tanks, u, asked);
  }

  // ---- when the AUX pair has to wait ----

  /** What a pair with these capacities gets from `remaining`. */
  function Gets(remaining: real, leftCap: real, rightCap: real, u: Unit): (real, real) {
    var s := Shares(Min(remaining, leftCap + rightCap), leftCap, rightCap);
    (RoundFuel(s.0, u), RoundFuel(s.1, u))
  }

  lemma GetsNothing(remaining: real, u: Unit)
    requires -Step(u) <= remaining
    ensures Gets(remaining, 0.0, 0.0, u) == (0.0, 0.0)
  {
    var s := Shares(Min(remaining, 0.0), 0.0, 0.0);
    RoundGrid(s.0, u);
    RoundGrid(s.1, u);
  }

  /** One turn of the pair loop, in numbers. */
  lemma PairGets(f: Fill, cap: Quantities, u: Unit, p: Pair, ids: seq<string>) returns (s: (real, real))
    requires TankTable(cap, ids) && Bounded(f, cap, ids, u) && Fresh(f, p) && Mapped(ids, p)
    ensures s == Gets(f.remaining, Qty(cap, p.0), Qty(cap, p.1), u)
    ensures var g := FillPair(f, cap, u, p);
            Qty(g.qty, p.0) == s.0 && Qty(g.qty, p.1) == s.1 && g.remaining == f.remaining - (s.0 + s.1)
  {
    s := Gets(f.remaining, Qty(cap, p.0), Qty(cap, p.1), u);
    if !Present(cap, p) {
      assert Qty(cap, p.0) == 0.0 && Qty(cap, p.1) == 0.0;
      GetsNothing(f.remaining, u);
    }
  }

  /** The first two turns decide what the first two pairs hold. */
  lemma TwoTurns(f: Fill, g: Fill, cap: Quantities, u: Unit, pairs: seq<Pair>, ids: seq<string>, a: Pair, b: Pair)
    returns (one: Fill, two: Fill)
    requires Ready(f, cap, u, pairs, ids) && |pairs| >= 2 && a == pairs[0] && b == pairs[1] && g == FillPairs(f, cap, u, pairs)
    ensures one == FillPair(f, cap, u, a) && two == FillPair(one, cap, u, b)
    ensures Bounded(one, cap, ids, u) && Fresh(f, a) && Fresh(one, b)
    ensures Qty(g.qty, a.0) == Qty(one.qty, a.0) && Qty(g.qty, a.1) == Qty(one.qty, a.1)
    ensures Qty(g.qty, b.0) == Qty(two.qty, b.0) && Qty(g.qty, b.1) == Qty(two.qty, b.1)
  {
    one := FillPair(f, cap, u, a);
    two := FillPair(one, cap, u, b);
    HeadApart(pairs);
    Untouched(one, cap, u, pairs[1..], a);
    ReadyNext(f, cap, u, pairs, ids);
    HeadApart(pairs[1..]);
    Untouched(two, cap, u, pairs[1..][1..], b);
  }

  /** What a pair that is not used up leaves is less than a step, and little more than its smaller tank. */
  lemma PairLeaves(quantity: real, leftCap: real, rightCap: real, u: Unit)
    requires 0.0 <= leftCap && 0.0 <= rightCap && 0.0 <= quantity < leftCap + rightCap
    ensures var s := Gets(quantity, leftCap, rightCap, u);
            quantity - (s.0 + s.1) < Min(Step(u), Min(leftCap, rightCap) + Step(u) / 2.0)
  {
    var s := Shares(quantity, leftCap, rightCap);
    RoundGrid(s.0, u);
    RoundGrid(s.1, u);
    RoundInside(s.0, leftCap, u);
    RoundInside(s.1, rightCap, u);
  }

  /** The mains hold half a step somewhere, the AUX pair does on one side only, and the smaller main
      holds more than the smaller AUX tank. */
  predicate AuxSlips(mainLeft: real, mainRight: real, auxLeft: real, auxRight: real, u: Unit) {
    && !SameUse(auxLeft, auxRight, u)
    && Max(mainLeft, mainRight) >= Step(u) / 2.0
    && Min(mainLeft, mainRight) > Min(auxLeft, auxRight)
  }

  lemma SmallMains(quantity: real, mainLeft: real, mainRight: real, u: Unit)
    requires 0.0 <= mainLeft < Step(u) / 2.0 && 0.0 <= mainRight < Step(u) / 2.0 && 0.0 <= quantity < mainLeft + mainRight
    ensures Gets(quantity, mainLeft, mainRight, u) == (RoundFuel(mainLeft, u), RoundFuel(mainRight, u))
  {
    var s := Shares(quantity, mainLeft, mainRight);
    RoundGrid(s.0, u);
    RoundGrid(s.1, u);
    RoundGrid(mainLeft, u);
    RoundGrid(mainRight, u);
  }

  /** Half a step more than the smaller AUX tank holds rounds to nothing in the mains and to a step in the AUX pair. */
  lemma SlipInMains(quantity: real, mainLeft: real, mainRight: real, auxLeft: real, auxRight: real, u: Unit)
    requires 0.0 <= mainLeft && 0.0 <= mainRight && 0.0 <= auxLeft && 0.0 <= auxRight
    requires AuxSlips(mainLeft, mainRight, auxLeft, auxRight, u) && quantity == Min(auxLeft, auxRight) + Step(u) / 2.0
    ensures Gets(quantity, mainLeft, mainRight, u) == (0.0, 0.0) != (RoundFuel(mainLeft, u), RoundFuel(mainRight, u))
  {
    RoomRounds(auxLeft, u);
    RoomRounds(auxRight, u);
    RoomRounds(mainLeft, u);
    RoomRounds(mainRight, u);
    var s := Shares(quantity, mainLeft, mainRight);
    RoundGrid(s.0, u);
    RoundGrid(s.1, u);
  }

  lemma SlipInAux(quantity: real, auxLeft: real, auxRight: real, u: Unit)
    requires 0.0 <= auxLeft && 0.0 <= auxRight && !SameUse(auxLeft, auxRight, u)
    requires quantity == Min(auxLeft, auxRight) + Step(u) / 2.0
    ensures var t := Gets(quantity, auxLeft, auxRight, u); t.0 + t.1 > 0.0
  {
    RoomRounds(auxLeft, u);
    RoomRounds(auxRight, u);
    var s := Shares(quantity, auxLeft, auxRight);
    RoomRounds(s.0, u);
    RoomRounds(s.1, u);
    RoundInside(s.0, auxLeft, u);
    RoundInside(s.1, auxRight, u);
  }

  ghost predicate PairsSlip(cap: Quantities, a: Pair, b: Pair, u: Unit) {
    AuxSlips(Qty(cap, a.0), Qty(cap, a.1), Qty(cap, b.0), Qty(cap, b.1), u)
  }

  /** A pair is full, or leaves less than the pair `b` can get hold of. */
  lemma FullOrLeaves(f: Fill, g: Fill, cap: Quantities, u: Unit, ids: seq<string>, a: Pair, b: Pair)
    requires TankTable(cap, ids) && Bounded(f, cap, ids, u) && Fresh(f, a) && Mapped(ids, a) && f.remaining >= 0.0
    requires g == FillPair(f, cap, u, a) && !PairsSlip(cap, a, b, u)
    ensures PairFull(g, cap, u, a) || NothingFor(g, cap, u, b)
  {
    var s := PairGets(f, cap, u, a, ids);
    if f.remaining < Qty(cap, a.0) + Qty(cap, a.1) {
      PairLeaves(f.remaining, Qty(cap, a.0), Qty(cap, a.1), u);
      if Max(Qty(cap, a.0), Qty(cap, a.1)) < Step(u) / 2.0 {
        SmallMains(f.remaining, Qty(cap, a.0), Qty(cap, a.1), u);
      }
    }
  }

  ghost predicate NothingFor(f: Fill, cap: Quantities, u: Unit, b: Pair) {
    && f.remaining < Step(u)
    && (SameUse(Qty(cap, b.0), Qty(cap, b.1), u) || f.remaining < Min(Qty(cap, b.0), Qty(cap, b.1)) + Step(u) / 2.0)
  }

  lemma GetsNone(f: Fill, g: Fill, cap: Quantities, u: Unit, ids: seq<string>, b: Pair)
    requires TankTable(cap, ids) && Bounded(f, cap, ids, u) && Fresh(f, b) && Mapped(ids, b)
    requires g == FillPair(f, cap, u, b) && NothingFor(f, cap, u, b)
    ensures PairQty(g, b) == 0.0
  {
    var s := PairGets(f, cap, u, b, ids);
    CrumbShares(f.remaining, Qty(cap, b.0), Qty(cap, b.1), u);
  }

  lemma TurnsWait(f: Fill, g: Fill, cap: Quantities, u: Unit, pairs: seq<Pair>, ids: seq<string>, a: Pair, b: Pair)
    requires Ready(f, cap, u, pairs, ids) && |pairs| >= 2 && Mapped(ids, a) && Mapped(ids, b) && f.remaining >= 0.0
    requires a == pairs[0] && b == pairs[1] && g == FillPairs(f, cap, u, pairs) && !PairsSlip(cap, a, b, u)
    ensures PairFull(g, cap, u, a) || PairQty(g, b) == 0.0
  {
    var one, two := TwoTurns(f, g, cap, u, pairs, ids, a, b);
    FullOrLeaves(f, one, cap, u, ids, a, b);
    if NothingFor(one, cap, u, b) {
      GetsNone(one, two, cap, u, ids, b);
    }
  }

  function SlipsAt(cap: Quantities, b: Pair, u: Unit): real {
    Min(Qty(cap, b.0), Qty(cap, b.1)) + Step(u) / 2.0
  }

  lemma NothingYet(f: Fill, g: Fill, cap: Quantities, u: Unit, ids: seq<string>, a: Pair, b: Pair)
    requires TankTable(cap, ids) && Bounded(f, cap, ids, u) && Fresh(f, a) && Mapped(ids, a) && Mapped(ids, b)
    requires f.remaining == SlipsAt(cap, b, u) && g == FillPair(f, cap, u, a) && PairsSlip(cap, a, b, u)
    ensures !PairFull(g, cap, u, a) && g.remaining == f.remaining
  {
    var s := PairGets(f, cap, u, a, ids);
    SlipInMains(f.remaining, Qty(cap, a.0), Qty(cap, a.1), Qty(cap, b.0), Qty(cap, b.1), u);
  }

  lemma ThenOneStep(f: Fill, g: Fill, cap: Quantities, u: Unit, ids: seq<string>, a: Pair, b: Pair)
    requires TankTable(cap, ids) && Bounded(f, cap, ids, u) && Fresh(f, b) && Mapped(ids, b)
    requires f.remaining == SlipsAt(cap, b, u) && g == FillPair(f, cap, u, b) && PairsSlip(cap, a, b, u)
    ensures PairQty(g, b) > 0.0
  {
    var s := PairGets(f, cap, u, b, ids);
    SlipInAux(f.remaining, Qty(cap, b.0), Qty(cap, b.1), u);
  }

  lemma TurnsSlip(f: Fill, g: Fill, cap: Quantities, u: Unit, pairs: seq<Pair>, ids: seq<string>, a: Pair, b: Pair)
    requires Ready(f, cap, u, pairs, ids) && |pairs| >= 2 && Mapped(ids, a) && Mapped(ids, b) && f.remaining == SlipsAt(cap, b, u)
    requires a == pairs[0] && b == pairs[1] && g == FillPairs(f, cap, u, pairs) && PairsSlip(cap, a, b, u)
    ensures !PairFull(g, cap, u, a) && PairQty(g, b) > 0.0
  {
    var one, two := TwoTurns(f, g, cap, u, pairs, ids, a, b);
    NothingYet(f, one, cap, u, ids, a, b);
    ThenOneStep(one, two, cap, u, ids, a, b);
  }

  /** In this split the second pair waits for the first. */
  ghost predicate Waits(tanks: seq<Tank>, u: Unit, quantity: real, a: Pair, b: Pair) {
    var g := Split(quantity, tanks, u);
    PairQty(g, b) > 0.0 ==> PairFull(g, Capacities(tanks), u, a)
  }

  lemma PairsAtEnd(tanks: seq<Tank>, u: Unit, quantity: real, k: nat, p: Pair)
    requires Capacitated(tanks) && quantity >= 0.0 && k < |SYMMETRIC_PAIRS| && p == SYMMETRIC_PAIRS[k] && Mapped(Ids(tanks), p)
    ensures var f, g := AfterPairs(tanks, u, quantity), Split(quantity, tanks, u);
            PairQty(g, p) == PairQty(f, p) && (PairFull(g, Capacities(tanks), u, p) <==> PairFull(f, Capacities(tanks), u, p))
  {
    PairStays(tanks, u, quantity, k);
  }

  lemma WaitsIff(tanks: seq<Tank>, u: Unit, a: Pair, b: Pair)
    requires Capacitated(tanks) && Mapped(Ids(tanks), a) && Mapped(Ids(tanks), b)
    requires |SYMMETRIC_PAIRS| >= 2 && a == SYMMETRIC_PAIRS[0] && b == SYMMETRIC_PAIRS[1]
    ensures (forall quantity: real :: quantity >= 0.0 ==> Waits(tanks, u, quantity, a, b)) <==> !PairsSlip(Capacities(tanks), a, b, u)
  {
    if PairsSlip(Capacities(tanks), a, b, u) {
      var quantity := WaitsNot(tanks, u, a, b);
    } else {
      forall quantity: real | quantity >= 0.0 ensures Waits(tanks, u, quantity, a, b) {
        AlwaysWaits(tanks, u, quantity, a, b);
      }
    }
  }

  lemma AlwaysWaits(tanks: seq<Tank>, u: Unit, quantity: real, a: Pair, b: Pair)
    requires Capacitated(tanks) && quantity >= 0.0 && Mapped(Ids(tanks), a) && Mapped(Ids(tanks), b)
    requires |SYMMETRIC_PAIRS| >= 2 && a == SYMMETRIC_PAIRS[0] && b == SYMMETRIC_PAIRS[1]
    requires !PairsSlip(Capacities(tanks), a, b, u)
    ensures Waits(tanks, u, quantity, a, b)
  {
    StartReady(tanks, u, quantity);
    TurnsWait(Start(tanks, quantity), AfterPairs(tanks, u, quantity), Capacities(tanks), u, SYMMETRIC_PAIRS, Ids(tanks), a, b);
    PairsAtEnd(tanks, u, quantity, 0, a);
    PairsAtEnd(tanks, u, quantity, 1, b);
  }

  lemma WaitsNot(tanks: seq<Tank>, u: Unit, a: Pair, b: Pair) returns (quantity: real)
    requires Capacitated(tanks) && Mapped(Ids(tanks), a) && Mapped(Ids(tanks), b)
    requires |SYMMETRIC_PAIRS| >= 2 && a == SYMMETRIC_PAIRS[0] && b == SYMMETRIC_PAIRS[1]
    requires PairsSlip(Capacities(tanks), a, b, u)
    ensures quantity >= 0.0 && !Waits(tanks, u, quantity, a, b)
  {
    TableOf(tanks);
    quantity := SlipsAt(Capacities(tanks), b, u);
    StartReady(tanks, u, quantity);
    TurnsSlip(Start(tanks, quantity), AfterPairs(tanks, u, quantity), Capacities(tanks), u, SYMMETRIC_PAIRS, Ids(tanks), a, b);
    PairsAtEnd(tanks, u, quantity, 0, a);
    PairsAtEnd(tanks, u, quantity, 1, b);
  }

  /** The AUX pair waits for full mains, whatever is asked for, exactly when the tanks do not slip. */
  lemma AuxWaitsIff(tanks: seq<Tank>, u: Unit)
    requires Capacitated(tanks)
    requires "LEFT_MAIN" in Ids(tanks) && "RIGHT_MAIN" in Ids(tanks) && "LEFT_AUX" in Ids(tanks) && "RIGHT_AUX" in Ids(tanks)
    ensures var cap := Capacities(tanks);
            (forall quantity: real :: quantity >= 0.0 ==> Waits(tanks, u, quantity, ("LEFT_MAIN", "RIGHT_MAIN"), ("LEFT_AUX", "RIGHT_AUX"))) <==>
            !AuxSlips(Qty(cap, "LEFT_MAIN"), Qty(cap, "RIGHT_MAIN"), Qty(cap, "LEFT_AUX"), Qty(cap, "RIGHT_AUX"), u)
  {
    ThreePairs(0);
    ThreePairs(1);
    WaitsIff(tanks, u, ("LEFT_MAIN", "RIGHT_MAIN"), ("LEFT_AUX", "RIGHT_AUX"));
  }

  // ---- a crumb ----

  /** Mains of 50 and 50, and an AUX pair of which only the right tank holds anything. */
  ghost predicate LopsidedAux(cap: Quantities) {
    cap == map["LEFT_MAIN" := 50.0, "RIGHT_MAIN" := 50.0, "LEFT_AUX" := 0.0, "RIGHT_AUX" := 20.0]
  }

  lemma NamesDiffer()
    ensures "LEFT_MAIN" != "RIGHT_MAIN" && "LEFT_AUX" != "RIGHT_AUX" && "LEFT_MAIN" != "LEFT_AUX" && "RIGHT_MAIN" != "RIGHT_AUX"
    ensures "LEFT_MAIN" != "RIGHT_AUX" && "RIGHT_MAIN" != "LEFT_AUX"
    ensures "LEFT_TIP" !in {"LEFT_MAIN", "RIGHT_MAIN", "LEFT_AUX", "RIGHT_AUX"}
  {
    assert "LEFT_MAIN"[0] == 'L' && "RIGHT_MAIN"[0] == 'R' && "LEFT_AUX"[0] == 'L' && "RIGHT_AUX"[0] == 'R';
    assert "LEFT_MAIN"[5] == 'M' && "LEFT_AUX"[5] == 'A' && "LEFT_TIP"[5] == 'T' && "RIGHT_MAIN"[6] == 'M' && "RIGHT_AUX"[6] == 'A';
  }

  /** 60.0098 gallons: the mains round down to 30 and 30, and what they leave rounds up to 0.01 in the right
      AUX tank, although neither main is full. */
  lemma CrumbReachesAux(f: Fill, cap: Quantities)
    requires LopsidedAux(cap) && f.remaining == 60.0098
    ensures var g := FillPair(FillPair(f, cap, Gallons, ("LEFT_MAIN", "RIGHT_MAIN")), cap, Gallons, ("LEFT_AUX", "RIGHT_AUX"));
            Qty(g.qty, "LEFT_MAIN") == 30.0 && Qty(g.qty, "RIGHT_MAIN") == 30.0 && Qty(g.qty, "RIGHT_AUX") == 0.01
  {
    NamesDiffer();
    FloorIs(3000.99, 3000);
    FloorIs(1.48, 1);
    FloorIs(0.5, 0);
    var g := FillPair(f, cap, Gallons, ("LEFT_MAIN", "RIGHT_MAIN"));
    assert Shares(60.0098, 50.0, 50.0) == (30.0049, 30.0049);
    assert g.remaining == 0.0098;
    assert Shares(0.0098, 0.0, 20.0) == (0.0, 0.0098);
  }
}
