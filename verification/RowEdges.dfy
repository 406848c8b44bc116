/** Rows that neighbouring indexes or names make of distant arms, and what balancing a staggered row
    does to the moment. */
module {:induction false} RowEdges {
  import opened Options
  import opened Weights
  import opened Stations
  import opened Sorting
  import opened LateralRows
  import opened RowBalance
  import opened CgShift

  // ---- rows by arm ----

  predicate BothNear(a: Station, b: Station) {
    a.arm.Some? && b.arm.Some? && Abs(a.arm.value - b.arm.value) <= PAIR_MAX_ARM_DELTA_FT
  }

  ghost predicate NearRow(ss: seq<Station>, r: Row) {
    exists a, b :: a in ss && b in ss && a.index == r.0 && b.index == r.1 && BothNear(a, b)
  }

  ghost predicate NearRows(ss: seq<Station>, b: Book) {
    forall r <- b.pairs :: NearRow(ss, r)
  }

  lemma AddNear(ss: seq<Station>, b: Book, s: Station, t: Station)
    requires NearRows(ss, b) && s in ss && t in ss && BothNear(s, t)
    ensures NearRows(ss, AddPair(b, s.index, t.index))
  {
    assert BothNear(t, s);
  }

  lemma GroupsNear(ss: seq<Station>, b: Book, g: Groups, order: seq<int>)
    requires NearRows(ss, b)
    requires forall j | 0 <= j < |order| :: order[j] in g.members
    requires forall k <- g.members :: forall i <- g.members[k] :: HasKey(ss, i, k)
    ensures NearRows(ss, PairGroups(b, g, order))
    decreases order
  {
    if order != [] {
      var m := g.members[order[0]];
      if |m| == 2 {
        assert m[0] in m && m[1] in m;
        var s :| s in ss && s.index == m[0] && s.arm.Some? && ArmKey(s) == order[0];
        var t :| t in ss && t.index == m[1] && t.arm.Some? && ArmKey(t) == order[0];
        SameKeyIsNear(s, t);
        AddNear(ss, b, s, t);
      }
      GroupsNear(ss, if |m| == 2 then AddPair(b, m[0], m[1]) else b, g, order[1..]);
    }
  }

  lemma SameKeyIsNear(s: Station, t: Station)
    requires s.arm.Some? && t.arm.Some? && ArmKey(s) == ArmKey(t)
    ensures BothNear(s, t)
  {
  }

  lemma NeighboursNear(ss: seq<Station>, b: Book, xs: seq<Station>)
    requires NearRows(ss, b) && forall s <- xs :: s in ss
    ensures NearRows(ss, PairNear(b, xs))
    decreases |xs|
  {
    if |xs| >= 2 {
      if NearArms(xs[0], xs[1]) {
        AddNear(ss, b, xs[0], xs[1]);
        NeighboursNear(ss, AddPair(b, xs[0].index, xs[1].index), xs[2..]);
      } else {
        NeighboursNear(ss, b, xs[1..]);
      }
    }
  }

  /** The two passes over the arms never pair stations more than two feet apart. */
  lemma ArmRowsAreNear(ss: seq<Station>)
    ensures NearRows(ss, AfterArms(ss))
  {
    var withArm := WithArm(ss);
    if |withArm| >= 2 {
      var g := GroupByArm(withArm);
      forall k <- g.members, i <- g.members[k] ensures HasKey(ss, i, k) {
        assert HasKey(withArm, i, k);
      }
      GroupsNear(ss, Book([], {}), g, g.order);
      var b := PairGroups(Book([], {}), g, g.order);
      var xs := SortBy(Leftovers(b, withArm), ArmDescending);
      forall s <- xs ensures s in ss {
        SortHas(Leftovers(b, withArm), ArmDescending, s);
      }
      NeighboursNear(ss, b, xs);
    }
  }

  // ---- rows by name ----

  function SortedRow(i: int, j: int): Row {
    if i <= j then (i, j) else (j, i)
  }

  /** The k-th of the one list goes with the k-th of the other. */
  ghost predicate Matched(lefts: seq<int>, rights: seq<int>, row: Row) {
    exists k :: 0 <= k < |lefts| && k < |rights| && row == SortedRow(lefts[k], rights[k])
  }

  lemma MatchedStep(lefts: seq<int>, rights: seq<int>, row: Row)
    requires lefts != [] && rights != []
    ensures Matched(lefts, rights, row) <==> row == SortedRow(lefts[0], rights[0]) || Matched(lefts[1..], rights[1..], row)
  {
    if Matched(lefts[1..], rights[1..], row) {
      var k :| 0 <= k < |lefts[1..]| && k < |rights[1..]| && row == SortedRow(lefts[1..][k], rights[1..][k]);
      assert row == SortedRow(lefts[k + 1], rights[k + 1]);
    }
    if Matched(lefts, rights, row) && row != SortedRow(lefts[0], rights[0]) {
      var k :| 0 <= k < |lefts| && k < |rights| && row == SortedRow(lefts[k], rights[k]);
      assert row == SortedRow(lefts[1..][k - 1], rights[1..][k - 1]);
    }
  }

  ghost predicate Unmatched(b: Book, lefts: seq<int>, rights: seq<int>) {
    && NoDup(lefts) && NoDup(rights)
    && (forall i <- lefts :: i !in rights && i !in b.paired)
    && (forall i <- rights :: i !in b.paired)
  }

  lemma UnmatchedTail(b: Book, lefts: seq<int>, rights: seq<int>)
    requires Unmatched(b, lefts, rights) && lefts != [] && rights != []
    ensures Unmatched(AddPair(b, lefts[0], rights[0]), lefts[1..], rights[1..])
  {
    assert lefts == [lefts[0]] + lefts[1..] && rights == [rights[0]] + rights[1..];
    forall i <- lefts[1..] ensures i != lefts[0] && i != rights[0] && i !in b.paired && i !in rights {
      assert i in lefts;
    }
    forall i <- rights[1..] ensures i != lefts[0] && i != rights[0] && i !in b.paired {
      assert i in rights;
    }
  }

  lemma SidesAre(b: Book, lefts: seq<int>, rights: seq<int>, row: Row)
    requires Unmatched(b, lefts, rights)
    ensures row in PairSides(b, lefts, rights).pairs <==> row in b.pairs || Matched(lefts, rights, row)
    decreases lefts
  {
    if lefts != [] && rights != [] {
      assert lefts[0] in lefts && rights[0] in rights;
      MatchedStep(lefts, rights, row);
      UnmatchedTail(b, lefts, rights);
      SidesAre(AddPair(b, lefts[0], rights[0]), lefts[1..], rights[1..], row);
    }
  }

  /** The names the third pass matches: the stations of one side not in a row by arm, in index order. */
  function SideList(ss: seq<Station>, side: Side): seq<int> {
    SortBy(OnSide(AfterArms(ss), ss, side), Ascending)
  }

  lemma OnSideIs(b: Book, ss: seq<Station>, side: Side, i: int)
    requires DistinctIndex(ss)
    ensures i in OnSide(b, ss, side) <==> i !in b.paired && HasSide(ss, i, side)
    ensures NoDup(OnSide(b, ss, side))
  {
    if ss != [] {
      OnSideIs(b, ss[1..], side, i);
      OnSideIs(b, ss[1..], side, ss[0].index);
      assert ss == [ss[0]] + ss[1..];
      assert !HasSide(ss[1..], ss[0].index, side);
      assert HasSide(ss, i, side) <==> (ss[0].index == i && ss[0].side == Some(side)) || HasSide(ss[1..], i, side) by {
        assert HasSide(ss[1..], i, side) ==> HasSide(ss, i, side);
      }
    }
  }

  lemma OneSideOnly(ss: seq<Station>, i: int)
    requires DistinctIndex(ss)
    ensures !(HasSide(ss, i, Left) && HasSide(ss, i, Right))
  {
  }

  lemma NameRowsAre(ss: seq<Station>, row: Row)
    requires DistinctIndex(ss)
    ensures row in AfterNames(ss).pairs
            <==> row in AfterArms(ss).pairs || Matched(SideList(ss, Left), SideList(ss, Right), row)
  {
    var b := AfterArms(ss);
    var lefts, rights := SideList(ss, Left), SideList(ss, Right);
    OnSideIs(b, ss, Left, 0);
    OnSideIs(b, ss, Right, 0);
    SortNoDup(OnSide(b, ss, Left), Ascending);
    SortNoDup(OnSide(b, ss, Right), Ascending);
    forall i <- lefts ensures i !in rights && i !in b.paired {
      SideIs(ss, Left, i);
      SideIs(ss, Right, i);
      OneSideOnly(ss, i);
    }
    forall i <- rights ensures i !in b.paired {
      SideIs(ss, Right, i);
    }
    SidesAre(b, lefts, rights, row);
  }

  lemma SideIs(ss: seq<Station>, side: Side, i: int)
    requires DistinctIndex(ss)
    ensures i in SideList(ss, side) <==> i !in AfterArms(ss).paired && HasSide(ss, i, side)
  {
    OnSideIs(AfterArms(ss), ss, side, i);
    SortHas(OnSide(AfterArms(ss), ss, side), Ascending, i);
  }

  // ---- rows by index ----

  ghost predicate Listed(xs: seq<Station>, i: int) {
    exists k :: 0 <= k < |xs| && xs[k].index == i
  }

  ghost predicate Climbing(xs: seq<Station>) {
    forall j, k :: 0 <= j < k < |xs| ==> xs[j].index < xs[k].index
  }

  /** An even number of listed indexes runs up to `i`. */
  ghost predicate EvenRun(xs: seq<Station>, i: int) {
    exists m: nat :: RunOf(xs, i, m)
  }

  ghost predicate RunOf(xs: seq<Station>, i: int, m: nat) {
    !Listed(xs, i - 2 * m - 1) && forall j :: i - 2 * m <= j < i ==> Listed(xs, j)
  }

  /** Two neighbouring indexes of the list, with an even run before them. */
  ghost predicate Neighbours(xs: seq<Station>, row: Row) {
    row.1 == row.0 + 1 && Listed(xs, row.0) && Listed(xs, row.1) && EvenRun(xs, row.0)
  }

  lemma ListedTail(xs: seq<Station>, n: nat, i: int)
    requires Climbing(xs) && n <= |xs|
    ensures Listed(xs[n..], i) <==> Listed(xs, i) && (n == |xs| || i >= xs[n].index) && n < |xs|
  {
    if Listed(xs, i) && n < |xs| && i >= xs[n].index {
      var k :| 0 <= k < |xs| && xs[k].index == i;
      assert k >= n;
      assert xs[n..][k - n].index == i;
    }
    if Listed(xs[n..], i) {
      var k :| 0 <= k < |xs[n..]| && xs[n..][k].index == i;
      assert xs[k + n].index == i;
    }
  }

  lemma Head(xs: seq<Station>, i: int)
    requires Climbing(xs) && xs != [] && i <= xs[0].index
    ensures Listed(xs, i) <==> i == xs[0].index
  {
  }

  lemma LaterRun(xs: seq<Station>, i: int, m: nat)
    requires Climbing(xs) && |xs| >= 2 && xs[1].index == xs[0].index + 1 && i >= xs[0].index + 2 && RunOf(xs[2..], i, m)
    ensures EvenRun(xs, i)
  {
    var a := xs[0].index;
    Head(xs, a - 1);
    ListedTail(xs, 2, i - 2 * m - 1);
    if m > 0 {
      ListedTail(xs, 2, i - 2 * m);
    }
    forall j | i - 2 * m <= j < i ensures Listed(xs, j) {
      ListedTail(xs, 2, j);
    }
    if Listed(xs, i - 2 * m - 1) {
      BetweenHeads(xs, i - 2 * m - 1);
      assert Listed(xs, a) && Listed(xs, a + 1);
      assert RunOf(xs, i, m + 1);
    } else {
      assert RunOf(xs, i, m);
    }
  }

  /** Of two neighbouring heads and the rest, an index is one of the heads or in the rest. */
  lemma BetweenHeads(xs: seq<Station>, i: int)
    requires Climbing(xs) && |xs| >= 2 && xs[1].index == xs[0].index + 1
    ensures Listed(xs, i) <==> i == xs[0].index || i == xs[0].index + 1 || Listed(xs[2..], i)
    ensures Listed(xs[2..], i) ==> i >= xs[0].index + 2
  {
    ListedTail(xs, 2, i);
    if Listed(xs, i) && i != xs[0].index && i != xs[1].index {
      var k :| 0 <= k < |xs| && xs[k].index == i;
      assert xs[2..][k - 2].index == i;
    }
  }

  lemma EarlierRun(xs: seq<Station>, i: int, m: nat)
    requires Climbing(xs) && |xs| >= 2 && xs[1].index == xs[0].index + 1 && i >= xs[0].index + 2 && RunOf(xs, i, m)
    ensures EvenRun(xs[2..], i)
  {
    var a := xs[0].index;
    Head(xs, a - 1);
    assert Listed(xs, a);
    assert i - 2 * m >= a;
    BetweenHeads(xs, i - 2 * m - 1);
    forall j | a + 2 <= j && i - 2 * m <= j < i ensures Listed(xs[2..], j) {
      BetweenHeads(xs, j);
    }
    if i - 2 * m >= a + 2 {
      assert RunOf(xs[2..], i, m);
    } else {
      BetweenHeads(xs, a + 1);
      assert i - 2 * (m - 1) - 1 == a + 1;
      assert RunOf(xs[2..], i, m - 1);
    }
  }

  /** Two neighbouring heads are a row and the rest goes on without them. */
  lemma PairHead(xs: seq<Station>, row: Row)
    requires Climbing(xs) && |xs| >= 2 && xs[1].index == xs[0].index + 1
    ensures Neighbours(xs, row) <==> row == (xs[0].index, xs[1].index) || Neighbours(xs[2..], row)
  {
    var a, i := xs[0].index, row.0;
    BetweenHeads(xs, i);
    BetweenHeads(xs, row.1);
    if i == a {
      Head(xs, a - 1);
      assert Listed(xs, a) && Listed(xs, a + 1);
      assert RunOf(xs, a, 0);
    } else if i == a + 1 {
      Head(xs, a - 1);
      assert Listed(xs, a);
      assert !EvenRun(xs, i) by {
        forall m: nat ensures !RunOf(xs, i, m) {
          assert m > 0 && RunOf(xs, i, m) ==> Listed(xs, a - 1);
        }
      }
    } else if i >= a + 2 {
      if EvenRun(xs, i) {
        var m: nat :| RunOf(xs, i, m);
        EarlierRun(xs, i, m);
      }
      if EvenRun(xs[2..], i) {
        var m: nat :| RunOf(xs[2..], i, m);
        LaterRun(xs, i, m);
      }
    }
  }

  lemma FirstAndRest(xs: seq<Station>, i: int)
    requires Climbing(xs) && xs != []
    ensures Listed(xs, i) <==> i == xs[0].index || Listed(xs[1..], i)
    ensures Listed(xs[1..], i) ==> i > xs[0].index
  {
    ListedTail(xs, 1, i);
    if Listed(xs, i) && i != xs[0].index {
      var k :| 0 <= k < |xs| && xs[k].index == i;
      assert xs[1..][k - 1].index == i;
    }
  }

  lemma SkippedRun(xs: seq<Station>, i: int, m: nat)
    requires Climbing(xs) && xs != [] && !Listed(xs, xs[0].index + 1) && i > xs[0].index + 1
    ensures RunOf(xs, i, m) <==> RunOf(xs[1..], i, m)
  {
    var a := xs[0].index;
    FirstAndRest(xs, a + 1);
    FirstAndRest(xs, i - 2 * m - 1);
    assert a + 1 < i - 2 * m || !RunOf(xs, i, m);
    assert a + 1 < i - 2 * m || !RunOf(xs[1..], i, m);
    forall j | i - 2 * m <= j < i && j > a ensures Listed(xs, j) <==> Listed(xs[1..], j) {
      FirstAndRest(xs, j);
    }
  }

  /** A head without its neighbour is in no row. */
  lemma SkipHead(xs: seq<Station>, row: Row)
    requires Climbing(xs) && xs != [] && !Listed(xs, xs[0].index + 1)
    ensures Neighbours(xs, row) <==> Neighbours(xs[1..], row)
  {
    var a, i := xs[0].index, row.0;
    FirstAndRest(xs, i);
    FirstAndRest(xs, row.1);
    FirstAndRest(xs, a + 1);
    if i > a + 1 {
      forall m: nat ensures RunOf(xs, i, m) <==> RunOf(xs[1..], i, m) {
        SkippedRun(xs, i, m);
      }
    }
  }

  lemma IndexRowsAre(b: Book, xs: seq<Station>, row: Row)
    requires Climbing(xs) && forall k | 0 <= k < |xs| :: Unused(b, xs[k])
    ensures row in PairConsecutive(b, xs).pairs <==> row in b.pairs || Neighbours(xs, row)
    decreases |xs|
  {
    if |xs| >= 2 {
      if xs[1].index == xs[0].index + 1 {
        var c := AddPair(b, xs[0].index, xs[1].index);
        PairHead(xs, row);
        IndexRowsAre(c, xs[2..], row);
      } else {
        assert !Listed(xs, xs[0].index + 1) by {
          FirstAndRest(xs, xs[0].index + 1);
        }
        SkipHead(xs, row);
        IndexRowsAre(b, xs[1..], row);
      }
    }
  }

  // ---- all rows ----

  /** The stations the last pass looks at: in no row yet, no hold, in index order. */
  function CabinList(ss: seq<Station>): seq<Station> {
    SortBy(Cabin(AfterNames(ss), ss), IndexAscending)
  }

  lemma CabinDistinct(b: Book, ss: seq<Station>)
    requires DistinctIndex(ss)
    ensures NoDup(Cabin(b, ss)) && DistinctIndex(Cabin(b, ss))
  {
    if ss != [] {
      CabinDistinct(b, ss[1..]);
      assert ss == [ss[0]] + ss[1..];
      forall s <- Cabin(b, ss[1..]) ensures s.index != ss[0].index {
        assert s in ss[1..];
      }
    }
  }

  lemma CabinClimbs(ss: seq<Station>)
    requires DistinctIndex(ss)
    ensures Climbing(CabinList(ss)) && forall k | 0 <= k < |CabinList(ss)| :: Unused(AfterNames(ss), CabinList(ss)[k])
  {
    var cabin, xs := Cabin(AfterNames(ss), ss), CabinList(ss);
    CabinDistinct(AfterNames(ss), ss);
    SortNoDup(cabin, IndexAscending);
    SortOrders(cabin, IndexAscending);
    forall k | 0 <= k < |xs| ensures xs[k] in cabin {
      SortHas(cabin, IndexAscending, xs[k]);
    }
    forall j, k | 0 <= j < k < |xs| ensures xs[j].index < xs[k].index {
      assert IndexAscending(xs[j], xs[k]) && xs[j] != xs[k];
      assert xs[j] in cabin && xs[k] in cabin;
    }
  }

  /** A row is a row by arm, or joins the k-th unused left name with the k-th unused right name, or joins
      two neighbouring unused cabin indexes with an even run of such indexes before them. */
  lemma RowsIff(p: Profile, ids: seq<int>, row: Row)
    requires NoDup(ids)
    ensures var ss := Resolve(p, ids);
            row in Rows(p, ids)
            <==> |ss| >= 2 && (row in AfterArms(ss).pairs || Matched(SideList(ss, Left), SideList(ss, Right), row)
                               || Neighbours(CabinList(ss), row))
  {
    var ss := Resolve(p, ids);
    ResolveDistinct(p, ids);
    NameRowsAre(ss, row);
    CabinClimbs(ss);
    IndexRowsAre(AfterNames(ss), CabinList(ss), row);
  }

  /** Both arms known and more than two feet apart. */
  ghost predicate Distant(p: Profile, row: Row) {
    && ArmOf(p, row.0).Some? && ArmOf(p, row.1).Some?
    && Abs(ArmOf(p, row.0).value - ArmOf(p, row.1).value) > PAIR_MAX_ARM_DELTA_FT
  }

  lemma DistantIsNotNear(p: Profile, ids: seq<int>, row: Row)
    requires Distant(p, row)
    ensures row !in AfterArms(Resolve(p, ids)).pairs
  {
    var ss := Resolve(p, ids);
    ArmRowsAreNear(ss);
    if row in AfterArms(ss).pairs {
      var a, b :| a in ss && b in ss && a.index == row.0 && b.index == row.1 && BothNear(a, b);
      ResolveMember(p, ids, a);
      ResolveMember(p, ids, b);
      assert false;
    }
  }

  /** Stations with distant arms are a row exactly when their names or their indexes make them one: the
      index pass does not ask for a missing arm. */
  lemma DistantRowIff(p: Profile, ids: seq<int>, row: Row)
    requires NoDup(ids) && Distant(p, row)
    ensures var ss := Resolve(p, ids);
            row in Rows(p, ids)
            <==> |ss| >= 2 && (Matched(SideList(ss, Left), SideList(ss, Right), row) || Neighbours(CabinList(ss), row))
  {
    DistantIsNotNear(p, ids, row);
    RowsIff(p, ids, row);
  }

  // ---- arms that make no row ----

  ghost predicate DistinctKeys(ss: seq<Station>) {
    && (forall s <- ss :: s.arm.Some?)
    && forall j, k :: 0 <= j < k < |ss| ==> ss[j].arm.Some? && ss[k].arm.Some? && ArmKey(ss[j]) != ArmKey(ss[k])
  }

  ghost predicate Singles(g: Groups) {
    forall k <- g.members :: |g.members[k]| == 1
  }

  lemma GroupsAreSingle(ss: seq<Station>)
    requires DistinctKeys(ss)
    ensures Singles(GroupByArm(ss))
    ensures forall k <- GroupByArm(ss).members :: exists s :: s in ss && s.arm.Some? && ArmKey(s) == k
  {
    if ss != [] {
      var front, last := ss[..|ss| - 1], ss[|ss| - 1];
      GroupsAreSingle(front);
      assert ss == front + [last];
      assert ArmKey(last) !in GroupByArm(front).members;
    }
  }

  lemma SinglesPairNothing(b: Book, g: Groups, order: seq<int>)
    requires Singles(g) && forall j | 0 <= j < |order| :: order[j] in g.members
    ensures PairGroups(b, g, order) == b
    decreases order
  {
    if order != [] {
      var key := order[0];
      assert key in g.members;
      assert |g.members[key]| == 1;
      SinglesPairNothing(b, g, order[1..]);
    }
  }

  lemma AllArmed(ss: seq<Station>)
    requires forall s <- ss :: s.arm.Some?
    ensures WithArm(ss) == ss && Leftovers(Book([], {}), ss) == ss
  {
    if ss != [] {
      assert ss == [ss[0]] + ss[1..];
      AllArmed(ss[1..]);
    }
  }

  /** Without two stations on one arm, the arms pair neighbours of the sorted list. */
  lemma LoneArms(ss: seq<Station>)
    requires |ss| >= 2 && DistinctKeys(ss) && Ordered(ss, ArmDescending)
    ensures AfterArms(ss) == PairNear(Book([], {}), ss)
  {
    var g := GroupByArm(ss);
    AllArmed(ss);
    GroupsAreSingle(ss);
    SinglesPairNothing(Book([], {}), g, g.order);
    SortIdle(ss, ArmDescending);
  }

  lemma NoNames(b: Book, ss: seq<Station>)
    requires forall s <- ss :: s.side.None?
    ensures WithNames(b, ss) == b
  {
    if ss != [] {
      assert ss == [ss[0]] + ss[1..];
      NoNames(b, ss[1..]);
    }
    NoSide(b, ss, Left);
  }

  lemma NoSide(b: Book, ss: seq<Station>, side: Side)
    requires forall s <- ss :: s.side.None?
    ensures OnSide(b, ss, side) == []
  {
    if ss != [] {
      assert ss == [ss[0]] + ss[1..];
      NoSide(b, ss[1..], side);
    }
  }

  /** Any two neighbouring indexes in the cabin make a row, however far apart their arms are. */
  lemma DistantArmsArePaired(i: int, a: real, b: real, lb: real)
    requires a > b + PAIR_MAX_ARM_DELTA_FT
    ensures var p := [Station(i, lb, Some(a), None, false), Station(i + 1, lb, Some(b), None, false)];
            Rows(p, [i, i + 1]) == [(i, i + 1)]
  {
    var s, t := Station(i, lb, Some(a), None, false), Station(i + 1, lb, Some(b), None, false);
    var p := [s, t];
    var none := Book([], {});
    assert p[1..] == [t] && [i, i + 1][1..] == [i + 1] && [i + 1][1..] == [];
    assert Lookup(p, i + 1) == Lookup(p[1..], i + 1) == Some(t);
    assert Resolve(p, [i + 1]) == [t];
    assert Resolve(p, [i, i + 1]) == p;
    LoneArms(p);
    assert PairNear(none, p) == PairNear(none, p[1..]) == none;
    NoNames(none, p);
    assert Cabin(none, [t]) == [t] + Cabin(none, [t][1..]);
    assert Cabin(none, p) == [s] + Cabin(none, p[1..]) == p;
    SortIdle(p, IndexAscending);
    assert PairConsecutive(none, p) == PairConsecutive(AddPair(none, i, i + 1), p[2..]);
  }

  // ---- a forward move that ends further aft ----

  lemma ThreeStations(s: Station, t: Station, v: Station)
    requires s.index == 1 && t.index == 2 && v.index == 3
    ensures var p := [s, t, v];
            Resolve(p, [1, 2, 3]) == p && Lookup(p, 1) == Some(s) && Lookup(p, 2) == Some(t) && Lookup(p, 3) == Some(v)
  {
    var p := [s, t, v];
    assert p[1..] == [t, v] && p[1..][1..] == [v];
    assert Lookup(p, 2) == Lookup(p[1..], 2);
    assert Lookup(p, 3) == Lookup(p[1..], 3) == Lookup(p[1..][1..], 3);
    assert [1, 2, 3][1..] == [2, 3] && [2, 3][1..] == [3] && [3][1..] == [];
    assert Resolve(p, [3]) == [v];
    assert Resolve(p, [2, 3]) == [t, v];
  }

  /** Two near stations and one behind them on an arm of its own. */
  ghost predicate NearAndBehind(s: Station, t: Station, v: Station) {
    && s.index == 1 && t.index == 2 && v.index == 3
    && s.side.None? && t.side.None? && v.side.None? && !v.hold
    && NearArms(s, t) && v.arm.Some? && s.arm.value > t.arm.value > v.arm.value && DistinctKeys([s, t, v])
  }

  lemma NearRowByArm(s: Station, t: Station, v: Station)
    requires NearAndBehind(s, t, v)
    ensures AfterArms([s, t, v]) == Book([(1, 2)], {1, 2})
  {
    var ss := [s, t, v];
    LoneArms(ss);
    assert ss[2..] == [v];
    assert PairNear(Book([], {}), ss) == PairNear(AddPair(Book([], {}), 1, 2), [v]);
  }

  lemma LastAlone(b: Book, s: Station, t: Station, v: Station)
    requires NearAndBehind(s, t, v) && b.paired == {1, 2}
    ensures Cabin(b, [s, t, v]) == [v]
  {
    var p := [s, t, v];
    assert p[1..] == [t, v] && [t, v][1..] == [v] && [v][1..] == [];
    assert Cabin(b, [v]) == [v] + Cabin(b, []);
    assert Cabin(b, [t, v]) == Cabin(b, [v]);
    assert Cabin(b, p) == Cabin(b, [t, v]);
  }

  lemma OneRow(s: Station, t: Station, v: Station)
    requires NearAndBehind(s, t, v)
    ensures Rows([s, t, v], [1, 2, 3]) == [(1, 2)]
  {
    var ss := [s, t, v];
    var b := Book([(1, 2)], {1, 2});
    ThreeStations(s, t, v);
    NearRowByArm(s, t, v);
    NoNames(b, ss);
    LastAlone(b, s, t, v);
    SortIdle([v], IndexAscending);
  }

  // ---- the shift ----

  lemma ForwardOrder(s: Station, t: Station, v: Station)
    requires NearAndBehind(s, t, v)
    ensures ForwardFirst([s, t, v], [1, 2, 3]) == [1, 2, 3]
  {
    ThreeStations(s, t, v);
    SortIdle([s, t, v], ArmDescending);
  }

  lemma TailMayFeedNose(c: Course, s: Station, t: Station, v: Station)
    requires NearAndBehind(s, t, v) && s.arm.value - v.arm.value >= 0.05
    requires c == Course([s, t, v], [1, 2, 3], [(1, 2)], Forward)
    ensures Allowed(c, 3, 1)
  {
    ThreeStations(s, t, v);
    assert [1, 2, 3][1..] == [2, 3] && [2, 3][1..] == [3];
    assert IndexOf([3], 3) == 0 && IndexOf([2, 3], 3) == 1;
  }

  /** The first move tried goes from the tail to the nose. */
  lemma FirstMove(s: Station, t: Station, v: Station)
    requires NearAndBehind(s, t, v) && s.arm.value - v.arm.value >= 0.05
    ensures var moves := MovesOf([s, t, v], [1, 2, 3], Forward, {});
            moves != [] && moves[0] == (3, 1)
  {
    var c := CourseOf([s, t, v], [1, 2, 3], Forward);
    OneRow(s, t, v);
    ForwardOrder(s, t, v);
    TailMayFeedNose(c, s, t, v);
    assert Reversed(c.order)[0] == 3;
    assert MovesFrom(c, 3, c.order)[0] == (3, 1);
  }

  /** When the first move takes all that is asked for, it is the only one. */
  lemma OneMove(w: Load, p: Profile, ids: seq<int>, asked: real, m: Move)
    requires asked > 0.0 && Whole(asked) && |ids| >= 2 && m.0 != m.1 && m.1 in ids && Known(p, m.1)
    requires var moves := MovesOf(p, ids, Forward, {}); moves != [] && moves[0] == m
    requires asked <= At(w, m.0) && asked <= HardCap(p, m.1) - At(w, m.1)
    ensures Moved(w, p, ids, Forward, asked, map[], map[], {}) == Shift(Transfer(w, m.0, m.1, asked), 0.0, asked)
    ensures Shifted(w, p, ids, Forward, asked, map[], map[], {}) == Balanced(Transfer(w, m.0, m.1, asked), p, ids, map[])
  {
    var cap := ShiftCaps(p, map[], ids);
    var moves := MovesOf(p, ids, Forward, {});
    RoundWhole(asked);
    assert MoveSize(Shift(w, asked, 0.0), cap, map[], m) == asked;
    RunIdle(Shift(Transfer(w, m.0, m.1, asked), 0.0, asked), cap, map[], moves[1..]);
  }

  /** Three stations of 200 lb: two front seats on arms 10 and 9 with 100 lb on the first, and 1 lb on a
      seat on arm 5. */
  ghost predicate Staggered(p: Profile, w: Load, arm: Load) {
    && |p| == 3
    && p[0] == Station(1, 200.0, Some(10.0), None, false) && p[1] == Station(2, 200.0, Some(9.0), None, false)
    && p[2] == Station(3, 200.0, Some(5.0), None, false)
    && w == map[1 := 100.0, 2 := 0.0, 3 := 1.0] && arm == map[1 := 10.0, 2 := 9.0, 3 := 5.0]
  }

  lemma StaggeredStations(p: Profile, w: Load, arm: Load)
    requires Staggered(p, w, arm)
    ensures p == [p[0], p[1], p[2]] && NearAndBehind(p[0], p[1], p[2])
    ensures HardCap(p, 1) == 200.0 && HardCap(p, 2) == 200.0
  {
    FloorIs(1000.5, 1000);
    FloorIs(900.5, 900);
    FloorIs(500.5, 500);
    assert ArmKey(p[0]) == 1000 && ArmKey(p[1]) == 900 && ArmKey(p[2]) == 500;
    ThreeStations(p[0], p[1], p[2]);
  }

  lemma MomentOfThree(w: Load, arm: Load, a: real, b: real, c: real)
    requires At(w, 1) == a && At(w, 2) == b && At(w, 3) == c
    requires At(arm, 1) == 10.0 && At(arm, 2) == 9.0 && At(arm, 3) == 5.0
    ensures Moment(w, arm, [1, 2, 3]) == 10.0 * a + 9.0 * b + 5.0 * c
  {
    assert [1, 2, 3][1..] == [2, 3] && [2, 3][1..] == [3] && [3][1..] == [];
    assert Moment(w, arm, [3]) == 5.0 * c;
    assert Moment(w, arm, [2, 3]) == 9.0 * b + 5.0 * c;
  }

  /** 101 lb on a row of two become 51 and 50. */
  lemma OddRow(w: Load, cap: Load)
    requires At(w, 1) == 101.0 && At(w, 2) == 0.0 && At(cap, 1) == 200.0 && At(cap, 2) == 200.0
    ensures At(EvenRow(w, cap, (1, 2)), 1) == 51.0 && At(EvenRow(w, cap, (1, 2)), 2) == 50.0
  {
    assert Whole(200.0) && Whole(101.0) && Whole(51.0) && Whole(50.0);
    RoundWhole(101.0);
    EvenRowIsEven(w, cap, (1, 2));
    EvenPairIsUnique(At(EvenRow(w, cap, (1, 2)), 1), At(EvenRow(w, cap, (1, 2)), 2), 51.0, 50.0, 200.0, 200.0);
  }

  /** Asked to move one pound forward, the shift moves it to the nose and then balances the front row: the
      moment ends 45 lb ft further aft than it began. */
  lemma ForwardMoveEndsAft(p: Profile, w: Load, arm: Load)
    requires Staggered(p, w, arm)
    ensures var v := Shifted(w, p, [1, 2, 3], Forward, 1.0, map[], map[], {});
            && Moved(w, p, [1, 2, 3], Forward, 1.0, map[], map[], {}).moved == 1.0
            && At(v, 1) == 51.0 && At(v, 2) == 50.0 && At(v, 3) == 0.0
            && Moment(w, arm, [1, 2, 3]) == 1005.0 && Moment(v, arm, [1, 2, 3]) == 960.0
  {
    var ids := [1, 2, 3];
    var s := ForwardPound(p, w, arm);
    FrontRow(p, w, arm, s.w);
    MomentOfThree(w, arm, 100.0, 0.0, 1.0);
    MomentOfThree(Balanced(s.w, p, ids, map[]), arm, 51.0, 50.0, 0.0);
  }

  lemma FrontRow(p: Profile, w: Load, arm: Load, v: Load)
    requires Staggered(p, w, arm) && At(v, 1) == 101.0 && At(v, 2) == 0.0
    ensures var b := Balanced(v, p, [1, 2, 3], map[]);
            At(b, 1) == 51.0 && At(b, 2) == 50.0 && At(b, 3) == At(v, 3)
  {
    var cap := Caps(p, map[], [1, 2, 3]);
    StaggeredStations(p, w, arm);
    OneRow(p[0], p[1], p[2]);
    OddRow(v, cap);
    EvenRowElsewhere(v, cap, (1, 2), 3);
    assert [(1, 2)][1..] == [];
    assert EvenRows(v, cap, [(1, 2)]) == EvenRow(v, cap, (1, 2));
  }

  lemma ForwardPound(p: Profile, w: Load, arm: Load) returns (s: Shift)
    requires Staggered(p, w, arm)
    ensures s == Moved(w, p, [1, 2, 3], Forward, 1.0, map[], map[], {})
    ensures s.moved == 1.0 && At(s.w, 1) == 101.0 && At(s.w, 2) == 0.0 && At(s.w, 3) == 0.0
    ensures Shifted(w, p, [1, 2, 3], Forward, 1.0, map[], map[], {}) == Balanced(s.w, p, [1, 2, 3], map[])
  {
    StaggeredStations(p, w, arm);
    assert Known(p, 1) by {
      ThreeStations(p[0], p[1], p[2]);
    }
    FirstMove(p[0], p[1], p[2]);
    assert Whole(1.0);
    OneMove(w, p, [1, 2, 3], 1.0, (3, 1));
    s := Moved(w, p, [1, 2, 3], Forward, 1.0, map[], map[], {});
  }
}
