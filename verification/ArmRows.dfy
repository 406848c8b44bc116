/** Which rows the arms make: two stations alone on one arm, and two alone within two feet of each other. */
module {:induction false} ArmRows {
  import opened Options
  import opened Weights
  import opened Stations
  import opened Sorting
  import opened LateralRows
  import opened CgShift
  import opened RowEdges

  // ---- one arm ----

  /** Indexes of the stations with an arm key, in list order. */
  function OnArm(ss: seq<Station>, key: int): seq<int>
    requires forall s <- ss :: s.arm.Some?
  {
    if ss == [] then []
    else
      var n := |ss| - 1;
      OnArm(ss[..n], key) + (if ArmKey(ss[n]) == key then [ss[n].index] else [])
  }

  lemma GroupsAreArms(ss: seq<Station>, key: int)
    requires forall s <- ss :: s.arm.Some?
    ensures var g := GroupByArm(ss);
            && NoDup(g.order) && (key in g.order <==> key in g.members) && (key in g.members <==> OnArm(ss, key) != [])
            && (key in g.members ==> g.members[key] == OnArm(ss, key))
  {
    if ss != [] {
      var n := |ss| - 1;
      var front, last := ss[..n], ss[n];
      GroupsAreArms(front, key);
      GroupsAreArms(front, ArmKey(last));
    }
  }

  lemma OnArmHas(ss: seq<Station>, key: int, i: int)
    requires forall s <- ss :: s.arm.Some?
    ensures i in OnArm(ss, key) <==> HasKey(ss, i, key)
  {
    if ss != [] {
      var n := |ss| - 1;
      OnArmHas(ss[..n], key, i);
      assert ss == ss[..n] + [ss[n]];
      if HasKey(ss[..n], i, key) {
        assert HasKey(ss, i, key);
      }
      if ArmKey(ss[n]) == key && ss[n].index == i {
        assert ss[n] in ss;
      }
    }
  }

  /** Pairs once found are kept. */
  lemma PairGroupsKeep(b: Book, g: Groups, order: seq<int>, r: Row)
    requires (forall j | 0 <= j < |order| :: order[j] in g.members) && r in b.pairs
    ensures r in PairGroups(b, g, order).pairs
    decreases order
  {
    if order != [] {
      var m := g.members[order[0]];
      PairGroupsKeep(if |m| == 2 then AddPair(b, m[0], m[1]) else b, g, order[1..], r);
    }
  }

  /** Only stations of the groups handled so far are used up. */
  lemma PairGroupsUse(b: Book, g: Groups, order: seq<int>, i: int)
    requires forall j | 0 <= j < |order| :: order[j] in g.members
    requires i !in b.paired && forall j | 0 <= j < |order| :: i !in g.members[order[j]] || |g.members[order[j]]| != 2
    ensures i !in PairGroups(b, g, order).paired
    decreases order
  {
    if order != [] {
      var m := g.members[order[0]];
      var c := if |m| == 2 then AddPair(b, m[0], m[1]) else b;
      if |m| == 2 {
        assert m[0] in m && m[1] in m;
      }
      forall j | 0 <= j < |order[1..]| ensures i !in g.members[order[1..][j]] || |g.members[order[1..][j]]| != 2 {
        assert order[1..][j] == order[j + 1];
      }
      PairGroupsUse(c, g, order[1..], i);
    }
  }

  /** A group of two becomes a row when its stations are in no other group. */
  lemma PairGroupsAdd(b: Book, g: Groups, order: seq<int>, key: int)
    requires (forall j | 0 <= j < |order| :: order[j] in g.members) && NoDup(order) && key in order && |g.members[key]| == 2
    requires var m := g.members[key];
             && m[0] != m[1] && m[0] !in b.paired && m[1] !in b.paired
             && forall k <- order :: k != key ==> k in g.members && m[0] !in g.members[k] && m[1] !in g.members[k]
    ensures var m := g.members[key];
            SortedRow(m[0], m[1]) in PairGroups(b, g, order).pairs
    decreases order
  {
    var m := g.members[key];
    var first := g.members[order[0]];
    var c := if |first| == 2 then AddPair(b, first[0], first[1]) else b;
    assert order == [order[0]] + order[1..];
    if order[0] == key {
      PairGroupsKeep(c, g, order[1..], SortedRow(m[0], m[1]));
    } else {
      assert order[0] in order;
      if |first| == 2 {
        assert first[0] in first && first[1] in first;
      }
      PairGroupsAdd(c, g, order[1..], key);
    }
  }

  lemma PairNearKeeps(b: Book, xs: seq<Station>, r: Row)
    requires r in b.pairs
    ensures r in PairNear(b, xs).pairs
    decreases |xs|
  {
    if |xs| >= 2 {
      if NearArms(xs[0], xs[1]) {
        PairNearKeeps(AddPair(b, xs[0].index, xs[1].index), xs[2..], r);
      } else {
        PairNearKeeps(b, xs[1..], r);
      }
    }
  }

  lemma WithArmHas(ss: seq<Station>, s: Station)
    ensures s in WithArm(ss) <==> s in ss && s.arm.Some?
  {
    if ss != [] {
      WithArmHas(ss[1..], s);
      assert ss == [ss[0]] + ss[1..];
    }
  }

  lemma WithArmDistinct(ss: seq<Station>)
    requires DistinctIndex(ss)
    ensures DistinctIndex(WithArm(ss))
  {
    if ss != [] {
      WithArmDistinct(ss[1..]);
      forall s <- WithArm(ss[1..]) ensures s.index != ss[0].index {
        assert s in ss[1..];
      }
    }
  }

  /** Two stations and no third on one arm, to the hundredth of a foot. */
  ghost predicate AloneOnArm(ss: seq<Station>, a: Station, b: Station) {
    && a in ss && b in ss && a != b && a.arm.Some? && b.arm.Some? && ArmKey(a) == ArmKey(b)
    && forall s <- ss :: s.arm.Some? && ArmKey(s) == ArmKey(a) ==> s == a || s == b
  }

  lemma GroupOfTwo(ss: seq<Station>, a: Station, b: Station)
    requires DistinctIndex(ss) && (forall s <- ss :: s.arm.Some?) && AloneOnArm(ss, a, b)
    ensures var m := OnArm(ss, ArmKey(a));
            |m| == 2 && m[0] != m[1] && SortedRow(m[0], m[1]) == SortedRow(a.index, b.index)
  {
    var m := OnArm(ss, ArmKey(a));
    OnArmHas(ss, ArmKey(a), a.index);
    OnArmHas(ss, ArmKey(a), b.index);
    OnArmDistinct(ss, ArmKey(a));
    forall i <- m ensures i == a.index || i == b.index {
      OnArmHas(ss, ArmKey(a), i);
    }
    TwoMembers(m, a.index, b.index);
  }

  lemma OnArmDistinct(ss: seq<Station>, key: int)
    requires DistinctIndex(ss) && forall s <- ss :: s.arm.Some?
    ensures NoDup(OnArm(ss, key))
  {
    if ss != [] {
      var n := |ss| - 1;
      OnArmDistinct(ss[..n], key);
      OnArmHas(ss[..n], key, ss[n].index);
    }
  }

  lemma TwoMembers(m: seq<int>, x: int, y: int)
    requires NoDup(m) && x != y && x in m && y in m && forall i <- m :: i == x || i == y
    ensures |m| == 2 && ((m[0] == x && m[1] == y) || (m[0] == y && m[1] == x))
  {
    assert m[0] in m && m[|m| - 1] in m;
    assert |m| >= 2 ==> m[1] in m;
  }

  /** Two stations alone on one arm are a row. */
  lemma SameArmIsRow(p: Profile, ids: seq<int>, a: Station, b: Station)
    requires NoDup(ids) && AloneOnArm(Resolve(p, ids), a, b)
    ensures SortedRow(a.index, b.index) in Rows(p, ids)
  {
    var ss := Resolve(p, ids);
    var armed := WithArm(ss);
    var g := GroupByArm(armed);
    var key := ArmKey(a);
    ResolveDistinct(p, ids);
    WithArmDistinct(ss);
    forall s ensures s in armed <==> s in ss && s.arm.Some? {
      WithArmHas(ss, s);
    }
    GroupOfTwo(armed, a, b);
    GroupsAreArms(armed, key);
    OthersApart(armed, a, b);
    PairGroupsAdd(Book([], {}), g, g.order, key);
    var paired := PairGroups(Book([], {}), g, g.order);
    PairNearKeeps(paired, SortBy(Leftovers(paired, armed), ArmDescending), SortedRow(a.index, b.index));
    RowsIff(p, ids, SortedRow(a.index, b.index));
  }

  lemma OneGroupApart(ss: seq<Station>, k: int, s: Station)
    requires DistinctIndex(ss) && (forall t <- ss :: t.arm.Some?) && s in ss && ArmKey(s) != k && k in GroupByArm(ss).order
    ensures k in GroupByArm(ss).members && s.index !in GroupByArm(ss).members[k]
  {
    GroupsAreArms(ss, k);
    OnArmHas(ss, k, s.index);
  }

  lemma OthersApart(ss: seq<Station>, a: Station, b: Station)
    requires DistinctIndex(ss) && (forall s <- ss :: s.arm.Some?) && AloneOnArm(ss, a, b)
    ensures var g := GroupByArm(ss);
            forall k <- g.order :: k != ArmKey(a) ==> k in g.members && a.index !in g.members[k] && b.index !in g.members[k]
  {
    var g := GroupByArm(ss);
    forall k <- g.order | k != ArmKey(a) ensures k in g.members && a.index !in g.members[k] && b.index !in g.members[k] {
      OneGroupApart(ss, k, a);
      OneGroupApart(ss, k, b);
    }
  }

  // ---- near arms ----

  /** Two stations between 0.05 and 2 ft apart, `a` in front, and every other arm more than two feet in front
      of `a` or behind `b`. */
  ghost predicate AloneNear(ss: seq<Station>, a: Station, b: Station) {
    && a in ss && b in ss && a.arm.Some? && b.arm.Some? && 0.05 < a.arm.value - b.arm.value <= 2.0
    && forall s <- ss :: s.arm.Some? && s != a && s != b ==> s.arm.value > a.arm.value + 2.0 || s.arm.value < b.arm.value - 2.0
  }

  /** Stations alone on their arm are left over by the first pass. */
  lemma LoneIsLeft(ss: seq<Station>, a: Station)
    requires DistinctIndex(ss) && (forall s <- ss :: s.arm.Some?) && a in ss
    requires forall s <- ss :: s != a ==> ArmKey(s) != ArmKey(a)
    ensures var g := GroupByArm(ss); a.index !in PairGroups(Book([], {}), g, g.order).paired
  {
    var g := GroupByArm(ss);
    forall j | 0 <= j < |g.order| ensures a.index !in g.members[g.order[j]] || |g.members[g.order[j]]| != 2 {
      var k := g.order[j];
      if k == ArmKey(a) {
        GroupOfOne(ss, a);
        GroupsAreArms(ss, k);
      } else {
        OneGroupApart(ss, k, a);
      }
    }
    PairGroupsUse(Book([], {}), g, g.order, a.index);
  }

  lemma GroupOfOne(ss: seq<Station>, a: Station)
    requires DistinctIndex(ss) && (forall s <- ss :: s.arm.Some?) && a in ss
    requires forall s <- ss :: s != a ==> ArmKey(s) != ArmKey(a)
    ensures |OnArm(ss, ArmKey(a))| != 2
  {
    var m := OnArm(ss, ArmKey(a));
    OnArmDistinct(ss, ArmKey(a));
    if |m| == 2 {
      assert m[0] in m && m[1] in m;
      OnArmHas(ss, ArmKey(a), m[0]);
      OnArmHas(ss, ArmKey(a), m[1]);
    }
  }

  /** In a list from front to back, the pass over neighbours pairs two that are alone. */
  lemma NearPassPairs(b: Book, xs: seq<Station>, k: nat)
    requires k + 1 < |xs| && DistinctIndex(xs) && (forall s <- xs :: s.arm.Some?) && Ordered(xs, ArmDescending)
    requires xs[k].index !in b.paired && xs[k + 1].index !in b.paired && NearArms(xs[k], xs[k + 1])
    requires forall j | 0 <= j < k :: xs[j].arm.Some? && xs[j].arm.value > xs[k].arm.value + 2.0
    ensures SortedRow(xs[k].index, xs[k + 1].index) in PairNear(b, xs).pairs
    decreases |xs|
  {
    if k == 0 {
      PairNearKeeps(AddPair(b, xs[0].index, xs[1].index), xs[2..], SortedRow(xs[0].index, xs[1].index));
    } else if NearArms(xs[0], xs[1]) {
      assert k != 1;
      assert xs[2..][k - 2] == xs[k] && xs[2..][k - 1] == xs[k + 1];
      NearPassPairs(AddPair(b, xs[0].index, xs[1].index), xs[2..], k - 2);
    } else {
      assert xs[1..][k - 1] == xs[k] && xs[1..][k] == xs[k + 1];
      NearPassPairs(b, xs[1..], k - 1);
    }
  }

  lemma LeftoversHave(b: Book, ss: seq<Station>, s: Station)
    ensures s in Leftovers(b, ss) <==> s in ss && Unused(b, s)
  {
    if ss != [] {
      LeftoversHave(b, ss[1..], s);
      assert ss == [ss[0]] + ss[1..];
    }
  }

  lemma LeftoversDistinct(b: Book, ss: seq<Station>)
    requires DistinctIndex(ss)
    ensures DistinctIndex(Leftovers(b, ss))
  {
    if ss != [] {
      LeftoversDistinct(b, ss[1..]);
      forall s <- Leftovers(b, ss[1..]) ensures s.index != ss[0].index {
        LeftoversHave(b, ss[1..], s);
      }
    }
  }

  /** Where two lone neighbours are in the sorted list. */
  lemma Adjacent(xs: seq<Station>, a: Station, b: Station) returns (k: nat)
    requires AloneNear(xs, a, b) && DistinctIndex(xs) && (forall s <- xs :: s.arm.Some?) && Ordered(xs, ArmDescending)
    ensures k + 1 < |xs| && xs[k] == a && xs[k + 1] == b
    ensures forall j | 0 <= j < k :: xs[j].arm.Some? && xs[j].arm.value > a.arm.value + 2.0
  {
    k :| 0 <= k < |xs| && xs[k] == a;
    var l :| 0 <= l < |xs| && xs[l] == b;
    assert k < l;
    assert xs[k + 1] in xs && ArmDescending(xs[k], xs[k + 1]) && xs[k + 1].index != a.index;
    assert k + 1 == l;
    forall j | 0 <= j < k ensures xs[j].arm.Some? && xs[j].arm.value > a.arm.value + 2.0 {
      assert xs[j] in xs && ArmDescending(xs[j], xs[k]);
      assert xs[j].index != a.index && xs[j].index != b.index;
    }
  }

  lemma NearKeysDiffer(a: Station, s: Station)
    requires a.arm.Some? && s.arm.Some? && (a.arm.value > s.arm.value + 0.05 || s.arm.value > a.arm.value + 0.05)
    ensures ArmKey(a) != ArmKey(s)
  {
  }

  lemma LoneNearPairs(ss: seq<Station>, a: Station, b: Station)
    requires DistinctIndex(ss) && (forall s <- ss :: s.arm.Some?) && AloneNear(ss, a, b)
    ensures var g := GroupByArm(ss);
            var c := PairGroups(Book([], {}), g, g.order);
            SortedRow(a.index, b.index) in PairNear(c, SortBy(Leftovers(c, ss), ArmDescending)).pairs
  {
    var g := GroupByArm(ss);
    var c := PairGroups(Book([], {}), g, g.order);
    forall s <- ss | s != a ensures ArmKey(s) != ArmKey(a) { NearKeysDiffer(a, s); }
    forall s <- ss | s != b ensures ArmKey(s) != ArmKey(b) { NearKeysDiffer(b, s); }
    LoneIsLeft(ss, a);
    LoneIsLeft(ss, b);
    SortedLeftovers(c, ss, a, b);
    var xs := SortBy(Leftovers(c, ss), ArmDescending);
    var k := Adjacent(xs, a, b);
    NearPassPairs(c, xs, k);
  }

  lemma SortedLeftovers(c: Book, ss: seq<Station>, a: Station, b: Station)
    requires DistinctIndex(ss) && (forall s <- ss :: s.arm.Some?) && AloneNear(ss, a, b) && Unused(c, a) && Unused(c, b)
    ensures var xs := SortBy(Leftovers(c, ss), ArmDescending);
            DistinctIndex(xs) && (forall s <- xs :: s.arm.Some?) && Ordered(xs, ArmDescending) && AloneNear(xs, a, b)
  {
    var left := Leftovers(c, ss);
    var xs := SortBy(left, ArmDescending);
    LeftoversDistinct(c, ss);
    SortDistinct(left);
    SortGraded(left);
    forall s ensures s in xs <==> s in ss && Unused(c, s) {
      SortHas(left, ArmDescending, s);
      LeftoversHave(c, ss, s);
    }
  }

  /** Two stations alone within two feet of each other are a row. */
  lemma NearArmsAreRow(p: Profile, ids: seq<int>, a: Station, b: Station)
    requires NoDup(ids) && AloneNear(Resolve(p, ids), a, b)
    ensures SortedRow(a.index, b.index) in Rows(p, ids)
  {
    var ss := Resolve(p, ids);
    var armed := WithArm(ss);
    ResolveDistinct(p, ids);
    WithArmDistinct(ss);
    forall s ensures s in armed <==> s in ss && s.arm.Some? {
      WithArmHas(ss, s);
    }
    assert AloneNear(armed, a, b);
    LoneNearPairs(armed, a, b);
    TwoInList(ss, a, b);
    TwoInList(armed, a, b);
    RowsIff(p, ids, SortedRow(a.index, b.index));
  }

  lemma TwoInList(ss: seq<Station>, a: Station, b: Station)
    requires a in ss && b in ss && a != b
    ensures |ss| >= 2
  {
  }
}
